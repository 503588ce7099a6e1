/**
 When connectToHost succeeds and in which state: a greeting or a failure reports `finished` twice,
 and the second report can end a connectToHost that has only just begun.
 */
module FtpConnects {
  import opened Text
  import opened FtpTypes
  import opened FtpSpec
  import opened FtpRun
  import opened FtpControl
  import opened FtpLockstep
  import opened FtpStalls
  import opened FtpProgress
  import opened FtpOutcome
  import S = FtpSession
  import L = FtpLeftover

  predicate IsRunning(c: Client, cmd: Cmd) { c.ftp.pending != [] && !c.ftp.timer && c.ftp.pending[0] == cmd }

  /** A connectToHost that runs is ended by nothing but its greeting and its failure. */
  lemma ConnectStays(c: Client, e: Event)
    requires Rest(c) && Running(c.ftp) && HeadIs(c, ConnectToHost) && Enabled(c, e) && Fair(c, |c.past.trace|)
    requires e != ControlFails && !(e.Delivery? && c.net.greeting)
    ensures Step(c, e).past.trace == c.past.trace
  {
    if c.net.ctrl == Opening {
      SettingUp(c);
    } else if c.net.ctrl == Up && c.pi.state == Begin && c.net.greeting {
      assert c.net.inbox == [];
    } else {
      HungStep(c, e);
    }
  }

  lemma {:induction false} GreetingFirst(c: Client)
    requires Greeted(c) && HeadIs(c, ConnectToHost) && c.ftp.state == Connected
    ensures ReadLoop(c).past.trace == c.past.trace || EndsFirst(c, ReadLoop(c), false, Connected)
    decreases |c.net.inbox|
  {
    if c.net.inbox != [] {
      var r := c.net.inbox[0];
      if r.code != 220 {
        var s := c.(net := c.net.(inbox := c.net.inbox[1..]), pi := c.pi.(busy := true));
        var t := Logged(s, Served(r.cause, s.pi.cur, r.code));
        GreetingIgnored(c);
        GreetingLogged(c);
        assert t.(pi := t.pi.(busy := false)) == Logged(c.(net := s.net), Served(r.cause, s.pi.cur, r.code));
        GreetingFirst(t.(pi := t.pi.(busy := false)));
      } else {
        GreetingEnds(c);
      }
    }
  }

  lemma GreetingEnds(c: Client)
    requires Greeted(c) && HeadIs(c, ConnectToHost) && c.ftp.state == Connected
    requires c.net.inbox != [] && c.net.inbox[0].code == 220
    ensures EndsFirst(c, ReadLoop(c), false, Connected)
  {
    var r := c.net.inbox[0];
    var s := c.(net := c.net.(inbox := []), pi := c.pi.(busy := true));
    var u := Logged(s, Served(r.cause, s.pi.cur, r.code)).(pi := s.pi.(state := Idle));
    assert ProcessReply(s, r) == (Serve(s, r), true);
    FinishedFirst(u);
    AgainExtends(PiFinished(u), r);
    EndsFirstExtends(u, PiFinished(u), Serve(s, r), false, Connected);
    ReadLast(c, s, r);
  }

  lemma FinishedFirst(u: Client)
    requires HeadIs(u, ConnectToHost) && u.ftp.state == Connected
    ensures EndsFirst(u, PiFinished(u), false, Connected)
  {
    var p := Popped(u, false, AccountOf(u));
    assert p.past.trace[|u.past.trace|] == Finished(u.ftp.pending[0], false, AccountOf(u));
    GrowsStartNextCommand(p);
    EndsFirstExtends(u, p, PiFinished(u), false, Connected);
  }

  lemma AgainExtends(v: Client, r: Reply)
    requires r.code == 220
    ensures Extends(v, React(SpecialAction(v, r)))
  {
    assert SpecialAction(v, r) == v;
    ReactExtends(v);
  }

  lemma ReactExtends(v: Client)
    ensures Extends(v, React(v))
  {
    match v.pi.state
    case Success => GrowsStartNextCmd(v.(pi := v.pi.(state := Idle)));
    case Idle => GrowsStartNextCmd(v);
    case Failure =>
      GrowsPiError(v);
      GrowsStartNextCmd(Refused(v).(pi := Refused(v).pi.(state := Idle)));
    case _ =>
  }

  lemma GreetingTells(c: Client, rs: seq<Reply>)
    requires Rest(c) && Fair(c, |c.past.trace|) && Enabled(c, Delivery(rs)) && c.net.greeting
    ensures Running(c.ftp) && HeadIs(c, ConnectToHost)
    ensures var d := Step(c, Delivery(rs));
            d.past.trace == c.past.trace || EndsFirst(c, d, false, Connected)
  {
    var t := Taken(c, rs);
    assert c.net.inbox == [] && t.net.inbox == rs && !c.pi.waitClose;
    assert HeadIs(c, ConnectToHost) && c.pi.state == Begin;
    GreetingFirst(t);
    assert Step(c, Delivery(rs)) == ReadLoop(t);
  }

  /** A signal behind the end of the command that ran belongs to another. */
  lemma LaterEnd(c: Client, d: Client, i: nat)
    requires Alternating(d.past.trace) && c.ftp.pending != [] && |c.past.trace| < i < |d.past.trace|
    requires d.past.trace[|c.past.trace|].Finished? && d.past.trace[|c.past.trace|].cmd == c.ftp.pending[0]
    requires d.past.trace[i].Finished?
    ensures !IsRunning(c, d.past.trace[i].cmd)
  {
  }

  /** When connectToHost succeeds: in state Connected exactly if it was running before the event that
      ended it. Otherwise it was started by that very event, behind a greeting or a failure, whose
      second report of `finished` ends it while it is still in HostLookup. */
  lemma ConnectEnds(ip6: bool, local: string, plan: seq<seq<Request>>, es: seq<Event>, e: Event, i: nat)
    requires Allowed(Init(ip6, local, plan), es) && ShapedPlan(plan)
    requires Enabled(Run(Init(ip6, local, plan), es), e)
    requires var c := Run(Init(ip6, local, plan), es);
             |c.past.trace| <= i < |Step(c, e).past.trace| && Connects(Step(c, e).past.trace[i])
    ensures var c := Run(Init(ip6, local, plan), es);
            var s := Step(c, e).past.trace[i];
            s.account.qstate == if IsRunning(c, s.cmd) then Connected else HostLookup
  {
    var c := Run(Init(ip6, local, plan), es);
    FairReachable(ip6, local, plan, es);
    StepRest(c, e);
    RestBooks(Step(c, e));
    BooksAlternate(Step(c, e).ftp, Step(c, e).past.trace);
    ConnectEndsFrom(c, e, i);
  }

  lemma ConnectEndsFrom(c: Client, e: Event, i: nat)
    requires Rest(c) && Fair(c, |c.past.trace|) && Enabled(c, e) && Alternating(Step(c, e).past.trace)
    requires |c.past.trace| <= i < |Step(c, e).past.trace| && Connects(Step(c, e).past.trace[i])
    ensures var s := Step(c, e).past.trace[i];
            s.account.qstate == if IsRunning(c, s.cmd) then Connected else HostLookup
  {
    var n := |c.past.trace|;
    if e.Delivery? && c.net.greeting {
      GreetingTells(c, e.replies);
      FairFrom(c, n, n + 1);
      FairStep(c, e, n + 1);
      if i > n {
        LaterEnd(c, Step(c, e), i);
      }
    } else {
      FairStep(c, e, n);
      NotRunning(c, e, i);
    }
  }

  lemma NotRunning(c: Client, e: Event, i: nat)
    requires Rest(c) && Fair(c, |c.past.trace|) && Enabled(c, e) && Alternating(Step(c, e).past.trace)
    requires !(e.Delivery? && c.net.greeting)
    requires |c.past.trace| <= i < |Step(c, e).past.trace| && Connects(Step(c, e).past.trace[i])
    ensures !IsRunning(c, Step(c, e).past.trace[i].cmd)
  {
    if Running(c.ftp) && HeadIs(c, ConnectToHost) {
      if e == ControlFails {
        SettingUp(c);
        ControlFailsFirst(c);
        if i > |c.past.trace| {
          LaterEnd(c, Step(c, e), i);
        }
      } else {
        ConnectStays(c, e);
      }
    }
  }

  /** connectToHost is started over a connection that is up. */
  lemma DialsAgain(p: Client)
    requires HeadIs(p, ConnectToHost) && p.net.ctrl == Up && !p.ftp.closeWait
    ensures var v := StartNextCommand(p);
            && v.ftp.pending == p.ftp.pending && v.ftp.state == HostLookup && v.pi == p.pi && Extends(p, v)
  {
    var q := Prepared(Begun(p));
    assert [p.ftp.pending[0]] + p.ftp.pending[1..] == p.ftp.pending;
    assert PiConnectState(q, HostLookup) == q.(ftp := q.ftp.(state := HostLookup));
    assert StartNextCommand(p) == Dispatch(q) == Dial(q);
  }

  lemma HastyEnd(v: Client)
    requires HeadIs(v, ConnectToHost) && v.ftp.state == HostLookup && v.pi.queue == [] && !v.pi.waitConn
    ensures EndsFirst(v, StartNextCmd(v), false, HostLookup)
  {
    var w := v.(pi := v.pi.(cur := None));
    var p := Popped(w, false, AccountOf(w));
    assert p.past.trace[|v.past.trace|] == Finished(v.ftp.pending[0], false, AccountOf(w));
    assert StartNextCmd(v) == PiFinished(w);
    GrowsStartNextCommand(p);
    assert Extends(p, PiFinished(w));
    EndsFirstExtends(v, p, StartNextCmd(v), false, HostLookup);
  }

  /** The greeting of the first connectToHost ends the second too. */
  lemma HastyGreeting(u: Client, r: Reply)
    requires |u.ftp.pending| >= 2 && HeadIs(u, ConnectToHost) && u.ftp.pending[1].kind == ConnectToHost
    requires u.ftp.plan == [] && !u.ftp.closeWait && u.net.ctrl == Up && r.code == 220
    requires u.pi.state == Idle && u.pi.queue == [] && !u.pi.waitConn
    ensures EndsFirst(PiFinished(u), React(SpecialAction(PiFinished(u), r)), false, HostLookup)
  {
    var p := Popped(u, false, AccountOf(u));
    assert p.ftp.pending == u.ftp.pending[1..];
    DialsAgain(p);
    var v := PiFinished(u);
    assert v == StartNextCommand(p) && SpecialAction(v, r) == v && React(v) == StartNextCmd(v);
    HastyEnd(v);
  }

  lemma HastyHead(u: Client)
    requires |u.ftp.pending| >= 2 && HeadIs(u, ConnectToHost) && u.ftp.pending[1].kind == ConnectToHost
    requires u.ftp.plan == [] && !u.ftp.closeWait && u.net.ctrl == Up
    ensures HeadIs(PiFinished(u), ConnectToHost)
  {
    var p := Popped(u, false, AccountOf(u));
    assert p.ftp.pending == u.ftp.pending[1..];
    DialsAgain(p);
  }

  lemma DialsFirst(c: Client)
    requires c == Init(c.net.ip6, c.net.local, [])
    ensures var d := Step(Step(c, UserAdds(S.Connect())), UserAdds(S.Connect()));
            var e := Step(d, Fire);
            var f := Step(e, ControlOpens);
            && Enabled(c, UserAdds(S.Connect())) && Enabled(Step(c, UserAdds(S.Connect())), UserAdds(S.Connect()))
            && Enabled(d, Fire) && Enabled(e, ControlOpens)
            && |f.ftp.pending| == 2 && f.ftp.pending[0].kind == f.ftp.pending[1].kind == ConnectToHost
            && f.ftp.plan == [] && !f.ftp.closeWait && f.net == c.net.(ctrl := Up, greeting := true)
            && f.pi == c.pi
  {
    var d := Step(Step(c, UserAdds(S.Connect())), UserAdds(S.Connect()));
    assert |d.ftp.pending| == 2 && d.ftp.pending[0].kind == d.ftp.pending[1].kind == ConnectToHost;
    L.DialStarts(d.(ftp := d.ftp.(timer := false)));
  }

  ghost predicate HasHasty(c: Client) {
    exists i :: 0 <= i < |c.past.trace| && Connects(c.past.trace[i]) && c.past.trace[i].account.qstate == HostLookup
  }

  /** The greeting is awaited and nothing else is under way. */
  ghost predicate Awaiting(f: Client) {
    && f.net.ctrl == Up && f.net.greeting && f.net.inbox == []
    && f.pi.state == Begin && f.pi.abort == NoAbort && f.pi.queue == [] && f.pi.cur == None
    && !f.pi.waitConn && !f.pi.waitClose && !f.pi.busy
  }

  /** The state in which `finished` is reported for the first time. */
  function AtGreeting(f: Client): Client {
    var r := Reply(220, false, None);
    var t := Taken(f, [r]);
    Logged(t.(net := t.net.(inbox := []), pi := t.pi.(busy := true)), Served(None, None, 220)).(
      pi := t.pi.(busy := true, state := Idle))
  }

  lemma GreetingStep(f: Client)
    requires Awaiting(f)
    ensures var r := Reply(220, false, None);
            var d := React(SpecialAction(PiFinished(AtGreeting(f)), r));
            Enabled(f, Delivery([r])) && Step(f, Delivery([r])) == d.(pi := d.pi.(busy := false))
  {
    var r := Reply(220, false, None);
    var t := Taken(f, [r]);
    assert t.net.inbox == [r] && [r][0] == r;
    ReadLast(t, t.(net := t.net.(inbox := []), pi := t.pi.(busy := true)), r);
  }

  lemma HastyDelivery(f: Client)
    requires |f.ftp.pending| == 2 && f.ftp.pending[0].kind == f.ftp.pending[1].kind == ConnectToHost
    requires f.ftp.plan == [] && !f.ftp.closeWait && Awaiting(f)
    ensures var e := Delivery([Reply(220, false, None)]); Enabled(f, e) && HasHasty(Step(f, e))
  {
    var r := Reply(220, false, None);
    var u := AtGreeting(f);
    GreetingStep(f);
    HastyGreeting(u, r);
    HastyHead(u);
    HastyTold(PiFinished(u), React(SpecialAction(PiFinished(u), r)));
  }

  lemma HastyTold(v: Client, d: Client)
    requires EndsFirst(v, d, false, HostLookup) && HeadIs(v, ConnectToHost)
    ensures HasHasty(d.(pi := d.pi.(busy := false)))
  {
    assert Connects(d.past.trace[|v.past.trace|]);
  }

  /** Such a run: connectToHost is called twice before the greeting of the first has come. */
  lemma SecondConnectIsHasty(ip6: bool, local: string) returns (es: seq<Event>)
    ensures Allowed(Init(ip6, local, []), es) && HasHasty(Run(Init(ip6, local, []), es))
  {
    var c := Init(ip6, local, []);
    var a, g := UserAdds(S.Connect()), Delivery([Reply(220, false, None)]);
    DialsFirst(c);
    var d := Step(Step(c, a), a);
    var f := Step(Step(d, Fire), ControlOpens);
    HastyDelivery(f);
    S.OneStep(f, g);
    S.StepThen(Step(d, Fire), ControlOpens, [g]);
    S.StepThen(d, Fire, [ControlOpens] + [g]);
    S.StepThen(Step(c, a), a, [Fire] + ([ControlOpens] + [g]));
    S.StepThen(c, a, [a] + ([Fire] + ([ControlOpens] + [g])));
    es := [a] + ([a] + ([Fire] + ([ControlOpens] + [g])));
  }
}
