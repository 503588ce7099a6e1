/**
 What a proxy makes of a login: the USER line that goes out names the host that connectToHost was
 called for.
 */
module FtpProxy {
  import opened Text
  import opened FtpTypes
  import opened FtpSpec
  import opened FtpRun
  import opened FtpControl
  import opened FtpLockstep
  import opened FtpTransfer
  import opened FtpConnects
  import Q = FtpQueue
  import S = FtpSession

  function ByProxy(proxy: string): Request { Request(SetProxy, [Line(OTHER, proxy), Line(OTHER, "8021")], false) }

  function ToHost(host: string, port: string): Request {
    Request(ConnectToHost, [Line(OTHER, host), Line(OTHER, port)], false)
  }

  function As(user: string, password: string): Request {
    Request(Login, [Line(USER, user), Line(PASS, password)], false)
  }

  /** setProxy, connectToHost and login, and the connection comes up. */
  function Session(proxy: string, host: string, port: string, user: string, password: string): seq<Event> {
    [UserAdds(ByProxy(proxy))] + ([UserAdds(ToHost(host, port))] + ([UserAdds(As(user, password))] + Greeted()))
  }

  function Greeted(): seq<Event> { [Fire] + ([ControlOpens] + [Delivery([Reply(220, false, None)])]) }

  lemma Enqueued(ip6: bool, local: string, a: Request, b: Request, d: Request)
    ensures var c := Step(Step(Step(Init(ip6, local, []), UserAdds(a)), UserAdds(b)), UserAdds(d));
            && c.ftp.timer && c.ftp.plan == [] && c.ftp.state == Unconnected && !c.ftp.closeWait
            && c.ftp.pending == [Cmd(1, a.kind, a.raw, a.sink), Cmd(2, b.kind, b.raw, b.sink),
                                 Cmd(3, d.kind, d.raw, d.sink)]
            && c.pi == Init(ip6, local, []).pi.(extended := c.pi.extended) && c.net == Init(ip6, local, []).net
  {
  }

  /** The proxy is set, and connectToHost remembers whom it was called for. */
  lemma Dialed(g: Client, a: Cmd, b: Cmd, l: Cmd)
    requires g.ftp.pending == [a, b, l] && a.kind == SetProxy && b.kind == ConnectToHost && !g.ftp.closeWait
    requires g.ftp.plan == [] && g.net.ctrl == Down && g.ftp.proxyHost == ""
    ensures var d := StartNextCommand(g);
            && d.ftp.pending == [b, l] && d.ftp.plan == [] && !d.ftp.closeWait && d.ftp.timer == g.ftp.timer
            && d.ftp.proxyHost == ArgOf(a.raw, 0)
            && (d.ftp.proxyHost != "" ==> d.ftp.loginSuffix == Suffix(b.raw))
            && d.pi == g.pi && d.net == g.net.(ctrl := Opening)
  {
    var p := Q.Ready(g);
    Q.HeadStarts(g);
    Q.ReadyQueue(g);
    Q.PoppedTail(p, false, AccountOf(p));
    var q := Q.AfterHead(g);
    assert q.ftp.pending == [b, l] && q.ftp.proxyHost == ArgOf(a.raw, 0);
    DialsOut(q, b, l);
  }

  lemma DialsOut(q: Client, b: Cmd, l: Cmd)
    requires q.ftp.pending == [b, l] && b.kind == ConnectToHost && !q.ftp.closeWait && q.net.ctrl == Down
    ensures var d := StartNextCommand(q);
            && d.ftp == q.ftp.(state := HostLookup,
                               loginSuffix := if q.ftp.proxyHost == "" then q.ftp.loginSuffix else Suffix(b.raw))
            && d.pi == q.pi && d.net == q.net.(ctrl := Opening)
  {
    var s := Prepared(Begun(q));
    assert [b] + [b, l][1..] == [b, l];
    assert PiConnectState(s, HostLookup) == s.(ftp := s.ftp.(state := HostLookup));
    assert StartNextCommand(q) == Dispatch(s) == Dial(s);
  }

  /** After the greeting the login starts, and its first line goes out. */
  lemma LogsIn(f: Client, b: Cmd, l: Cmd)
    requires Awaiting(f) && f.ftp.pending == [b, l] && b.kind == ConnectToHost && l.kind == Login
    requires f.ftp.plan == [] && !f.ftp.closeWait && f.net.unanswered == []
    requires |l.raw| == 2 && l.raw[0].verb == USER
    ensures var e := Delivery([Reply(220, false, None)]);
            && Enabled(f, e)
            && Step(f, e).net.unanswered ==
               [Line(USER, l.raw[0].arg + if f.ftp.proxyHost == "" then "" else f.ftp.loginSuffix)]
  {
    GreetingStep(f);
    FirstLine(AtGreeting(f), b, l);
  }

  lemma FirstLine(u: Client, b: Cmd, l: Cmd)
    requires u.ftp.pending == [b, l] && b.kind == ConnectToHost && l.kind == Login && u.ftp.plan == []
    requires u.pi.queue == [] && u.net.ctrl == Up && u.pi.state == Idle && !u.pi.waitConn && u.net.unanswered == []
    requires |l.raw| == 2 && l.raw[0].verb == USER
    ensures React(SpecialAction(PiFinished(u), Reply(220, false, None))).net.unanswered ==
            [Line(USER, l.raw[0].arg + if u.ftp.proxyHost == "" then "" else u.ftp.loginSuffix)]
  {
    var p := Popped(u, false, AccountOf(u));
    assert [b, l][1..] == [l] && [l] + [] == [l];
    Q.PoppedTail(u, false, AccountOf(u));
    LoginBegins(p, l);
    var v := StartNextCommand(p);
    assert PiFinished(u) == v && SpecialAction(v, Reply(220, false, None)) == v && React(v) == v;
  }

  lemma LoginBegins(p: Client, l: Cmd)
    requires p.ftp.pending == [l] && l.kind == Login && |l.raw| == 2 && l.raw[0].verb == USER
    requires p.pi.queue == [] && p.net.ctrl == Up && p.pi.state == Idle && !p.pi.waitConn && p.net.unanswered == []
    ensures var v := StartNextCommand(p);
            && v.pi.state == Waiting
            && v.net.unanswered ==
               [Line(USER, l.raw[0].arg + if p.ftp.proxyHost == "" then "" else p.ftp.loginSuffix)]
  {
    S.HeadBegins(p);
    assert l.raw[0].arg + "" == l.raw[0].arg;
  }

  lemma SuffixOf(host: string, port: string)
    ensures Suffix(ToHost(host, port).raw) == "@" + host + (if port in ["", "0", "21"] then "" else ":" + port)
  {
  }

  /** The USER line of a login as it goes out: the user alone without a proxy, and otherwise the user
      at the host, with the port behind a colon unless it is 21. */
  lemma ProxiedLogin(ip6: bool, local: string, proxy: string, host: string, port: string, user: string,
                     password: string)
    ensures var es := Session(proxy, host, port, user, password);
            && Allowed(Init(ip6, local, []), es)
            && Run(Init(ip6, local, []), es).net.unanswered ==
               [Line(USER, user + if proxy == "" then ""
                                  else "@" + host + if port in ["", "0", "21"] then "" else ":" + port)]
  {
    SessionSteps(ip6, local, proxy, host, port, user, password);
    SuffixOf(host, port);
    ChainedAdds(Init(ip6, local, []), UserAdds(ByProxy(proxy)), UserAdds(ToHost(host, port)),
                UserAdds(As(user, password)), Greeted(), Delivery([Reply(220, false, None)]));
  }

  function Dialing(ip6: bool, local: string, a: Request, b: Request, l: Request): Client {
    Step(Step(Step(Step(Init(ip6, local, []), UserAdds(a)), UserAdds(b)), UserAdds(l)), Fire)
  }

  lemma SessionSteps(ip6: bool, local: string, proxy: string, host: string, port: string, user: string,
                     password: string)
    ensures var a, b, l := ByProxy(proxy), ToHost(host, port), As(user, password);
            var c := Step(Step(Step(Init(ip6, local, []), UserAdds(a)), UserAdds(b)), UserAdds(l));
            var d := Step(Dialing(ip6, local, a, b, l), ControlOpens);
            && Shape(a) && Shape(b) && Shape(l)
            && Enabled(c, Fire) && Enabled(Step(c, Fire), ControlOpens)
            && Enabled(d, Delivery([Reply(220, false, None)]))
            && Step(d, Delivery([Reply(220, false, None)])).net.unanswered ==
               [Line(USER, user + if proxy == "" then "" else Suffix(b.raw))]
  {
    var a, b, l := ByProxy(proxy), ToHost(host, port), As(user, password);
    var c := Step(Step(Step(Init(ip6, local, []), UserAdds(a)), UserAdds(b)), UserAdds(l));
    Enqueued(ip6, local, a, b, l);
    Dialed(c.(ftp := c.ftp.(timer := false)), c.ftp.pending[0], c.ftp.pending[1], c.ftp.pending[2]);
    OpensUp(Step(c, Fire));
    LogsIn(Step(Step(c, Fire), ControlOpens), c.ftp.pending[1], c.ftp.pending[2]);
  }

  lemma OpensUp(c: Client)
    requires c.net.ctrl == Opening && !c.ftp.closeWait && c.pi.abort == NoAbort
    ensures Enabled(c, ControlOpens)
    ensures var d := Step(c, ControlOpens);
            && d.ftp == c.ftp.(state := Connected) && d.pi == c.pi.(state := Begin)
            && d.net == c.net.(ctrl := Up, greeting := true)
  {
  }

  lemma ChainedAdds(c: Client, e0: Event, e1: Event, e2: Event, rest: seq<Event>, e5: Event)
    requires Enabled(c, e0) && Enabled(Step(c, e0), e1) && Enabled(Step(Step(c, e0), e1), e2)
    requires var d := Step(Step(Step(c, e0), e1), e2);
             Enabled(d, Fire) && Enabled(Step(d, Fire), ControlOpens) && Enabled(Step(Step(d, Fire), ControlOpens), e5)
    requires rest == [Fire] + ([ControlOpens] + [e5])
    ensures Allowed(c, [e0] + ([e1] + ([e2] + rest)))
    ensures Run(c, [e0] + ([e1] + ([e2] + rest))) ==
            Step(Step(Step(Step(Step(Step(c, e0), e1), e2), Fire), ControlOpens), e5)
  {
    ChainedEnd(Step(Step(Step(c, e0), e1), e2), e5);
    S.StepThen(Step(Step(c, e0), e1), e2, rest);
    S.StepThen(Step(c, e0), e1, [e2] + rest);
    S.StepThen(c, e0, [e1] + ([e2] + rest));
  }

  lemma ChainedEnd(d: Client, e: Event)
    requires Enabled(d, Fire) && Enabled(Step(d, Fire), ControlOpens) && Enabled(Step(Step(d, Fire), ControlOpens), e)
    ensures Allowed(d, [Fire] + ([ControlOpens] + [e]))
    ensures Run(d, [Fire] + ([ControlOpens] + [e])) == Step(Step(Step(d, Fire), ControlOpens), e)
  {
    var f := Step(d, Fire);
    S.OneStep(Step(f, ControlOpens), e);
    S.StepThen(f, ControlOpens, [e]);
    S.StepThen(d, Fire, [ControlOpens] + [e]);
  }
}
