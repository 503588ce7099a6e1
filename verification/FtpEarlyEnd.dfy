/**
 Downloads are complete only if no LIST or STOR is ended with 250 while its data connection is
 up: from every state in which that happens, a lawful continuation loses the data of a download.
 */
module FtpEarlyEnd {
  import opened Text
  import opened FtpTypes
  import opened FtpSpec
  import opened FtpRun
  import opened FtpControl
  import opened FtpLockstep
  import opened FtpScript
  import opened FtpTransfer
  import opened FtpDelivery
  import opened FtpSession
  import opened FtpLeftover

  // ------------------------------------------------------------------- the exact condition

  /** The command that runs has written LIST or STOR, and `r` is an accepting reply to it that a
      lawful server may send. */
  ghost predicate Answers(c: Client, r: Reply) {
    && c.net.ctrl == Up && c.pi.state == Waiting && !c.pi.waitClose && Running(c.ftp)
    && c.pi.cur.Some? && c.pi.cur.value.verb in {LIST, STOR}
    && StrictReply(r) && r.cause == c.pi.cur && Accepted(r.code)
  }

  lemma AnswersAlone(c: Client, r: Reply)
    requires Rest(c) && Kept(c) && Strict(c.past) && Answers(c, r)
    ensures c.net.unanswered == [c.pi.cur.value] && c.net.inbox == [] && !c.net.greeting
    ensures !c.pi.busy && c.pi.abort == NoAbort && Running(c.ftp)
  {
    assert Outstanding(c) == c.net.unanswered;
  }

  /** A reply that is in time leaves the run strict. */
  lemma InTimeStrict(c: Client, r: Reply)
    requires Rest(c) && Kept(c) && Strict(c.past) && Answers(c, r) && Timely(c.dtp.link, r)
    ensures Enabled(c, Delivery([r])) && Strict(Step(c, Delivery([r])).past)
  {
    var l := c.pi.cur.value;
    AnswersAlone(c, r);
    TakenRecord(c, r);
    var t := Taken(c, [r]);
    assert InOrder([l], [r]) by { assert InOrder([], [r][1..]); }
    assert t.net.inbox == [r];
    ReadLast(t, Answering(c, r), r);
    if !Holds(c, r) {
      OneReply(c, l, r);
      var s := Answering(c, r);
      assert Ready(s, [l]) == Ready(c, [l]).(pi := s.pi, past := s.past);
      ServedRecord(c, r, l);
    }
  }

  /** LIST and STOR are the last lines of their scripts. */
  lemma MovesLast(c: Client, r: Reply)
    requires Rest(c) && Kept(c) && Strict(c.past) && Answers(c, r) && c.dtp.link == Up
    ensures Sent(c, c.ftp.pending[0], c.pi.cur.value, [])
  {
    AnswersAlone(c, r);
    PassivePlain(c);
    MovesLastLine(c);
  }

  lemma MovesLastLine(c: Client)
    requires c.ftp.pending != [] && Script(c.ftp.pending[0], c.pi, c.now) && c.pi.state == Waiting
    requires TransferKind(c.ftp.pending[0].kind) && Plain(c.ftp.pending[0].raw) && !c.now.aborted
    requires c.pi.cur.Some? && c.pi.cur.value.verb in {LIST, STOR}
    ensures c.pi.queue == []
  {
    var cmd := c.ftp.pending[0];
    AnsweredLine(c);
    assert c.pi.queue == cmd.raw[|cmd.raw| - |c.pi.queue|..];
  }

  /** The listing or upload has finished, its data connection is left over, and the next command
      starts. */
  lemma EarlyOnWay(c: Client, cmd: Cmd, l: Line, r: Reply)
    requires Sent(c, cmd, l, []) && l.verb in {LIST, STOR} && TransferKind(cmd.kind)
    requires r.cause == Some(l) && r.code == 250 && c.dtp.link == Up && TailLeads(c.ftp, true)
    ensures var d := Step(c, Delivery([r]));
            Enabled(c, Delivery([r])) && OnWay(d) && !d.pi.busy && d.past.early == c.past.early + 1
  {
    HeadEnds(c, cmd, l, r);
    var t := AllAnswered(c, r);
    NextOnWay(t, t, true);
  }

  lemma EarlyLoses(c: Client, r: Reply)
    requires Rest(c) && Kept(c) && Strict(c.past) && Answers(c, r) && !Timely(c.dtp.link, r)
    requires TailLeads(c.ftp, true)
    ensures var d := Step(c, Delivery([r]));
            Enabled(c, Delivery([r])) && d.past.early == 1 && CanLose(d, 1)
  {
    assert c.dtp.link == Up;
    EarlyTransfer(c);
    MovesLast(c, r);
    EarlyOnWay(c, c.ftp.pending[0], c.pi.cur.value, r);
    StepRest(c, Delivery([r]));
    OnWayLoses(Step(c, Delivery([r])));
  }

  lemma EarlyTransfer(c: Client)
    requires Kept(c) && Strict(c.past) && Running(c.ftp) && c.dtp.link == Up
    ensures TransferKind(c.ftp.pending[0].kind)
  {
  }

  lemma StrictNeverLoses(c: Client)
    requires Rest(c) && Kept(c) && Strict(c.past)
    ensures !CanLose(c, 0)
  {
    forall es | Allowed(c, es) && Strict(Run(c, es).past) ensures Complete(Run(c, es)) {
      RunComplete(c, es);
    }
  }

  lemma TimelyNeverLoses(c: Client, r: Reply)
    requires Rest(c) && Kept(c) && Strict(c.past) && Answers(c, r) && Timely(c.dtp.link, r)
    ensures var d := Step(c, Delivery([r]));
            Enabled(c, Delivery([r])) && d.past.early == 0 && !CanLose(d, 0)
  {
    InTimeStrict(c, r);
    StepRest(c, Delivery([r]));
    StepKept(c, Delivery([r]));
    var d := Step(c, Delivery([r]));
    assert Kept(d);
    StrictNeverLoses(d);
  }

  /** Whether the end of a LIST or STOR is in time decides about the downloads to come. After a
      226, or a 250 while no data connection is up, no lawful continuation without another early
      end reports an incomplete download as finished. After a 250 with the data connection up some
      lawful continuation does, whatever follows in the queue and whatever the slots are going to
      add, if it leads to a download: logins, simple and raw commands, proxies, a Close with a new
      connection or the end of the queue may come before. */
  lemma EarlyEndDecides(ip6: bool, local: string, plan: seq<seq<Request>>, es: seq<Event>, r: Reply)
    requires Allowed(Init(ip6, local, plan), es) && ShapedPlan(plan)
    requires Strict(Run(Init(ip6, local, plan), es).past)
    requires Answers(Run(Init(ip6, local, plan), es), r)
    ensures var c := Run(Init(ip6, local, plan), es);
            var d := Step(c, Delivery([r]));
            && (Timely(c.dtp.link, r) ==> Enabled(c, Delivery([r])) && !CanLose(d, d.past.early))
            && (TailLeads(c.ftp, true) ==>
                  Enabled(c, Delivery([r])) && (!CanLose(d, d.past.early) <==> Timely(c.dtp.link, r)))
  {
    InitKept(ip6, local, plan);
    RunRest(Init(ip6, local, plan), es);
    RunKept(Init(ip6, local, plan), es);
    EarlyEndExactly(Run(Init(ip6, local, plan), es), r);
  }

  lemma EarlyEndExactly(c: Client, r: Reply)
    requires Rest(c) && Kept(c) && Strict(c.past) && Answers(c, r)
    ensures var d := Step(c, Delivery([r]));
            && (Timely(c.dtp.link, r) ==> Enabled(c, Delivery([r])) && !CanLose(d, d.past.early))
            && (TailLeads(c.ftp, true) ==>
                  Enabled(c, Delivery([r])) && (!CanLose(d, d.past.early) <==> Timely(c.dtp.link, r)))
  {
    if Timely(c.dtp.link, r) {
      TimelyNeverLoses(c, r);
    } else if TailLeads(c.ftp, true) {
      EarlyLoses(c, r);
    }
  }

  function Listing(): Request {
    Request(ListDir, [Line(TYPE, "A"), Line(PASV, ""), Line(LIST, "")], false)
  }

  lemma ListingLoses(c: Client)
    requires Rest(c) && AtRest(c) && c.ftp.plan == [] && c.dtp.link == Down && c.past.early == 0
    ensures CanLose(c, 1)
  {
    var cmd := Cmd(c.ftp.nextId, ListDir, Listing().raw, false);
    var e := UserAdds(Listing());
    var d := Step(c, e);
    Issue(c, Listing());
    StepRest(c, e);
    StepRest(d, Fire);
    IssuedLoses(Step(d, Fire), cmd);
    LosesBefore(d, Fire, 1);
    LosesBefore(c, e, 1);
  }

  lemma IssuedLoses(c: Client, cmd: Cmd)
    requires Rest(c) && Sent(c, cmd, Listing().raw[0], Listing().raw[1..]) && cmd.kind == ListDir
    requires c.ftp.pending == [cmd] && c.ftp.plan == [] && c.dtp.link == Down && c.past.early == 0
    ensures CanLose(c, 1)
  {
    var raw := Listing().raw;
    assert raw[1..][1..] == [Line(LIST, "")];
    var e := Delivery([Reply(200, false, Some(raw[0]))]);
    GoesOn(c, cmd, raw[0], raw[1..], 200);
    StepRest(c, e);
    ListedLoses(Step(c, e), cmd, Written(c, raw[1]));
    LosesBefore(c, e, 1);
  }

  lemma ListedLoses(c: Client, cmd: Cmd, l: Line)
    requires Rest(c) && Sent(c, cmd, l, [Line(LIST, "")]) && l.verb in {PASV, EPSV} && cmd.kind == ListDir
    requires c.ftp.pending == [cmd] && c.ftp.plan == [] && c.dtp.link == Down && c.past.early == 0
    ensures CanLose(c, 1)
  {
    var c1 := Step(c, Delivery([Address(l)]));
    assert [Line(LIST, "")][1..] == [];
    Connects(c, cmd, l, [Line(LIST, "")], Address(l));
    StepRest(c, Delivery([Address(l)]));
    StepRest(c1, DataOpens);
    OpenedLoses(Step(c1, DataOpens), cmd);
    LosesBefore(c1, DataOpens, 1);
    LosesBefore(c, Delivery([Address(l)]), 1);
  }

  lemma OpenedLoses(c: Client, cmd: Cmd)
    requires Rest(c) && Sent(c, cmd, Line(LIST, ""), []) && cmd.kind == ListDir
    requires c.ftp.pending == [cmd] && c.ftp.plan == [] && c.dtp.link == Up && c.past.early == 0
    ensures CanLose(c, 1)
  {
    var r := Reply(250, false, Some(Line(LIST, "")));
    LastLeads(c.ftp, cmd);
    EarlyOnWay(c, cmd, Line(LIST, ""), r);
    StepRest(c, Delivery([r]));
    OnWayLoses(Step(c, Delivery([r])));
    LosesBefore(c, Delivery([r]), 1);
  }

  /** Behind the last command nothing stands in the way. */
  lemma LastLeads(f: Ftp, cmd: Cmd)
    requires f.pending == [cmd] && f.plan == []
    ensures TailLeads(f, true)
  {
  }

  /** So one early end is enough, from the very first command on. */
  lemma EarlyEndLoses(ip6: bool, local: string)
    ensures CanLose(Init(ip6, local, []), 1) && !CanLose(Init(ip6, local, []), 0)
  {
    var c := Init(ip6, local, []);
    InitKept(ip6, local, []);
    StrictNeverLoses(c);
    Starts(ip6, local);
    RunRest(c, Start());
    ListingLoses(Run(c, Start()));
    LosesAfter(c, Start(), 1);
  }
}
