/**
 Active mode: what follows when the server refuses EPRT.
 */
module FtpActive {
  import opened Text
  import opened FtpTypes
  import opened FtpSpec
  import opened FtpRun
  import opened FtpControl
  import opened FtpLockstep
  import opened FtpStalls
  import opened FtpScript
  import opened FtpTransfer
  import opened FtpSession

  /** EPRT is on the wire and `r` refuses it. */
  ghost predicate Refuses(c: Client, r: Reply) {
    && c.pi.state == Waiting && CurIs(c.pi, EPRT) && c.pi.abort == NoAbort && !c.pi.waitClose
    && c.net.ctrl == Up && r.cause == c.pi.cur && r.code / 100 in {4, 5}
  }

  /** The line is the only one on the wire, and the data connection is not in the way. */
  ghost predicate Alone(c: Client) {
    && c.pi.cur.Some? && c.net.unanswered == [c.pi.cur.value] && c.net.inbox == []
    && !c.net.greeting && !c.pi.busy && Running(c.ftp) && c.dtp.link != Opening
    && !c.pi.waitConn && !c.ftp.closeWait
  }

  lemma RefusedAlone(c: Client, r: Reply)
    requires Rest(c) && Refuses(c, r)
    ensures Alone(c)
  {
    assert Outstanding(c) == c.net.unanswered;
  }

  function Entering(c: Client, r: Reply): Client {
    Answered(Logged(Answering(c, r), Served(r.cause, c.pi.cur, r.code)), r.code)
  }

  lemma RefusedEntered(c: Client, r: Reply)
    requires Alone(c) && Refuses(c, r)
    ensures var s := Entering(c, r);
            && s.net == c.net.(unanswered := []) && s.ftp == c.ftp && s.dtp == c.dtp
            && s.pi == c.pi.(state := Failure, busy := true)
            && Serve(Answering(c, r), r) == React(SpecialAction(s, r))
  {
    OneReply(c, c.pi.cur.value, r);
  }

  lemma RefusedReacts(s: Client, r: Reply)
    requires s.pi.state == Failure && CurIs(s.pi, EPRT) && r.code / 100 in {4, 5}
    ensures React(SpecialAction(s, r)) == StartNextCmd(PortFirst(s))
  {
    assert SpecialAction(s, r) == s;
    var t := Refused(s);
    assert t == PortFirst(s).(pi := t.pi) && t.pi.state == Failure;
  }

  lemma PortSent(s: Client)
    requires !s.pi.waitConn
    ensures var t := StartNextCmd(PortFirst(s));
            && t.ftp == s.ftp && t.dtp.link == s.dtp.link && t.pi.waitClose == s.pi.waitClose
            && t.net.ctrl == s.net.ctrl
            && (if s.net.ip6 then t.pi.state == Idle
                else t.pi.state == Waiting && t.pi.cur == Some(Line(PORT, s.net.local)))
  {
    assert StartNextCmd(PortFirst(s)) == SendFirst(PortFirst(s));
  }

  /** The command hangs over IPv6; over IPv4 PORT is on the wire. */
  ghost predicate Outcome(c: Client, d: Client) {
    (Hung(d) <==> c.net.ip6) &&
    (!c.net.ip6 ==> d.pi.state == Waiting && d.pi.cur == Some(Line(PORT, c.net.local)))
  }

  lemma RefusedDecides(c: Client, r: Reply)
    requires Alone(c) && Refuses(c, r)
    ensures Enabled(c, Delivery([r])) && Outcome(c, Step(c, Delivery([r])))
  {
    var s := Entering(c, r);
    OneReply(c, c.pi.cur.value, r);
    RefusedEntered(c, r);
    RefusedReacts(s, r);
    PortSent(s);
  }

  /** A refused EPRT is followed by PORT with the local address over IPv4; over IPv6 there is no
      PORT: nothing is written, and the command hangs for ever. The engine itself writes EPRT only
      over IPv6, so over IPv4 this is about a raw EPRT that the user has sent. */
  lemma RefusedEprt(ip6: bool, local: string, plan: seq<seq<Request>>, es: seq<Event>, r: Reply)
    requires Allowed(Init(ip6, local, plan), es) && Refuses(Run(Init(ip6, local, plan), es), r)
    ensures var c := Run(Init(ip6, local, plan), es);
            Enabled(c, Delivery([r])) && Outcome(c, Step(c, Delivery([r])))
  {
    InitRest(ip6, local, plan);
    RunRest(Init(ip6, local, plan), es);
    RefusedAlone(Run(Init(ip6, local, plan), es), r);
    RefusedDecides(Run(Init(ip6, local, plan), es), r);
  }
}
