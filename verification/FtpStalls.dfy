/**
 Commands that never finish: when nothing the interpreter waits for can still happen, no
 continuation of the run, of whatever length, ends the command or starts another.
 */
module FtpStalls {
  import opened Text
  import opened FtpTypes
  import opened FtpSpec
  import opened FtpRun
  import opened FtpControl
  import opened FtpLockstep

  /** A command runs, and no reply, no data connection and no change of the command connection
      that would take it further is possible. */
  ghost predicate Hung(c: Client) {
    && Running(c.ftp) && !c.pi.waitClose && c.dtp.link != Opening
    && (c.net.ctrl == Down ||
        (c.net.ctrl == Up && c.pi.state == Idle && !c.ftp.closeWait) ||
        (c.net.ctrl == Up && c.pi.state == Begin && !c.net.greeting))
  }

  /** The same command runs, and no signal was emitted meanwhile. */
  ghost predicate SameHead(c: Client, d: Client) {
    && d.past.trace == c.past.trace
    && Running(c.ftp) && Running(d.ftp) && d.ftp.pending[0] == c.ftp.pending[0]
    && d.ftp.plan == c.ftp.plan && d.pi.state == c.pi.state
    && (Strict(d.past) ==> Strict(c.past))
  }

  lemma HungDelivery(c: Client, rs: seq<Reply>)
    requires Rest(c) && Hung(c) && Enabled(c, Delivery(rs))
    ensures c.pi.abort == WaitForAbortToFinish && c.net.unanswered == [AborLine] && c.net.inbox == []
    ensures |rs| == 1 && rs[0].cause == Some(AborLine) && Final(rs[0].code) && !Holds(c, rs[0])
  {
    assert Outstanding(c) == c.net.unanswered;
  }

  lemma HungSwallows(c: Client, r: Reply)
    requires c.pi.abort == WaitForAbortToFinish && c.net.unanswered == [AborLine] && c.net.inbox == []
    requires !c.pi.waitClose && !c.pi.busy && !c.net.greeting && Final(r.code) && !Holds(c, r)
    ensures var t := Taken(c, [r]);
            Step(c, Delivery([r])) ==
            t.(pi := t.pi.(abort := NoAbort),
               net := t.net.(inbox := []),
               past := t.past.(log := t.past.log + [Swallowed(r.cause)]))
  {
    var t := Taken(c, [r]);
    assert t.net.inbox == [r];
    var s := t.(net := t.net.(inbox := []), pi := t.pi.(busy := true));
    ReadLast(t, s, r);
  }

  lemma HungStep(c: Client, e: Event)
    requires Rest(c) && Hung(c) && Enabled(c, e)
    ensures Hung(Step(c, e)) && SameHead(c, Step(c, e))
    ensures !e.UserAdds? && c.pi.state != Waiting ==>
              Step(c, e).ftp.pending == c.ftp.pending && Step(c, e).pi.queue == c.pi.queue
  {
    if e.Delivery? {
      HungDelivery(c, e.replies);
      assert e.replies == [e.replies[0]];
      HungSwallows(c, e.replies[0]);
    } else {
      HungOther(c, e);
    }
  }

  lemma HungOther(c: Client, e: Event)
    requires Rest(c) && Hung(c) && Enabled(c, e) && !e.Delivery?
    ensures Hung(Step(c, e)) && SameHead(c, Step(c, e))
    ensures !e.UserAdds? && c.pi.state != Waiting ==>
              Step(c, e).ftp.pending == c.ftp.pending && Step(c, e).pi.queue == c.pi.queue
  {
    assert c.net.inbox == [];
  }

  lemma {:induction false} HungRun(c: Client, es: seq<Event>)
    requires Rest(c) && Hung(c) && Allowed(c, es)
    ensures Hung(Run(c, es)) && SameHead(c, Run(c, es))
    decreases |es|
  {
    if es != [] {
      StepRest(c, es[0]);
      HungStep(c, es[0]);
      HungRun(Step(c, es[0]), es[1..]);
    }
  }

  /** A hung command stays hung: no continuation ends it, and no signal comes any more. */
  lemma HungForever(ip6: bool, local: string, plan: seq<seq<Request>>, es: seq<Event>, more: seq<Event>)
    requires Allowed(Init(ip6, local, plan), es) && Hung(Run(Init(ip6, local, plan), es))
    requires Allowed(Run(Init(ip6, local, plan), es), more)
    ensures var c := Run(Init(ip6, local, plan), es);
            Hung(Run(c, more)) && SameHead(c, Run(c, more))
  {
    InitRest(ip6, local, plan);
    RunRest(Init(ip6, local, plan), es);
    HungRun(Run(Init(ip6, local, plan), es), more);
  }

  // --------------------------------------------------------- a refused data connection

  /** waitForDtpToConnect is set although no data connection is being opened. */
  ghost predicate Blocked(c: Client) {
    c.pi.waitConn && c.dtp.link != Opening
  }

  lemma BlockedRests(c: Client)
    requires Rest(c) && Blocked(c)
    ensures Live(c) && !c.pi.waitClose && c.pi.state != Waiting && c.net.inbox == []
    ensures Unsettled(c) == [] || Unsettled(c) == [AborLine]
  {
    assert Unsettled(c) == Outstanding(c);
    assert [AborLine] + [] == [AborLine];
  }

  lemma BlockedFire(c: Client)
    requires Rest(c) && Blocked(c) && Enabled(c, Fire)
    ensures Blocked(Step(c, Fire))
  {
    BlockedRests(c);
    LiveStartNextCommand(c.(ftp := c.ftp.(timer := false)));
  }

  lemma BlockedControl(c: Client, e: Event)
    requires Rest(c) && Blocked(c) && Enabled(c, e)
    requires e in {HostFound, ControlOpens, ControlFails, ControlCloses}
    ensures Blocked(Step(c, e))
  {
    BlockedRests(c);
    if e == ControlFails {
      LivePiError(PiConnectState(c.(net := c.net.(ctrl := Down)), Unconnected));
    } else if e == ControlCloses && c.ftp.closeWait {
      assert Outstanding(Lost(c)) == Outstanding(c);
      LivePiFinished(Lost(c).(net := Lost(c).net.(ctrl := Down),
                              ftp := c.ftp.(state := Unconnected, closeWait := false)));
    }
  }

  /** Only the greeting can lead on to another command, and only the reply to an ABOR can come
      later. */
  lemma BlockedReply(c: Client, rs: seq<Reply>)
    requires Rest(c) && Blocked(c) && Enabled(c, Delivery(rs)) && !c.net.greeting
    ensures Blocked(Step(c, Delivery(rs)))
  {
    BlockedRests(c);
    assert Outstanding(c) == c.net.unanswered;
    assert rs == [rs[0]];
    HungSwallows(c, rs[0]);
  }

  lemma BlockedWelcome(s: Client, r: Reply)
    requires Live(s) && s.pi.state == Begin && s.net.ctrl == Up && s.net.inbox == [] && Blocked(s)
    requires r.code == 220 && r.cause == None && !s.net.greeting && !s.pi.waitClose
    ensures Blocked(Serve(s, r))
  {
    AttributedAppend(s.past.log, None, 220);
    var u := Logged(s, Served(r.cause, s.pi.cur, r.code)).(pi := s.pi.(state := Idle));
    LivePiFinished(u);
    var v := PiFinished(u);
    assert SpecialAction(v, r) == v;
  }

  lemma {:induction false} BlockedGreeting(c: Client)
    requires Greeted(c) && Blocked(c)
    ensures Blocked(ReadLoop(c))
    decreases |c.net.inbox|
  {
    if c.net.inbox == [] {
    } else if c.net.inbox[0].code != 220 {
      var r := c.net.inbox[0];
      var s := c.(net := c.net.(inbox := c.net.inbox[1..]), pi := c.pi.(busy := true));
      var t := Logged(s, Served(r.cause, s.pi.cur, r.code));
      GreetingIgnored(c);
      GreetingLogged(c);
      assert t.(pi := t.pi.(busy := false)) == Logged(c.(net := s.net), Served(r.cause, s.pi.cur, r.code));
      BlockedGreeting(t.(pi := t.pi.(busy := false)));
    } else {
      BlockedLast(c);
    }
  }

  lemma BlockedLast(c: Client)
    requires Greeted(c) && Blocked(c) && c.net.inbox != [] && c.net.inbox[0].code == 220
    ensures Blocked(ReadLoop(c))
  {
    var s := c.(net := c.net.(inbox := []), pi := c.pi.(busy := true));
    LiveBusy(c.(net := c.net.(inbox := [])));
    BlockedWelcome(s, c.net.inbox[0]);
    ReadLast(c, s, c.net.inbox[0]);
  }

  lemma BlockedDelivery(c: Client, rs: seq<Reply>)
    requires Rest(c) && Blocked(c) && Enabled(c, Delivery(rs))
    ensures Blocked(Step(c, Delivery(rs)))
  {
    BlockedRests(c);
    if c.net.greeting {
      var t := Taken(c, rs);
      assert t.net.inbox == rs;
      BlockedGreeting(t);
    } else {
      BlockedReply(c, rs);
    }
  }

  lemma BlockedStep(c: Client, e: Event)
    requires Rest(c) && Blocked(c) && Enabled(c, e)
    ensures Blocked(Step(c, e))
  {
    BlockedRests(c);
    match e
    case Delivery(rs) => BlockedDelivery(c, rs);
    case Fire => BlockedFire(c);
    case HostFound => BlockedControl(c, e);
    case ControlOpens => BlockedControl(c, e);
    case ControlFails => BlockedControl(c, e);
    case ControlCloses => BlockedControl(c, e);
    case _ =>
  }

  lemma {:induction false} BlockedRun(c: Client, es: seq<Event>)
    requires Rest(c) && Blocked(c) && Allowed(c, es)
    ensures Rest(Run(c, es)) && Blocked(Run(c, es))
    decreases |es|
  {
    if es != [] {
      StepRest(c, es[0]);
      BlockedStep(c, es[0]);
      BlockedRun(Step(c, es[0]), es[1..]);
    }
  }

  lemma RefusedBlocks(c: Client)
    requires Rest(c) && Enabled(c, DataFails)
    ensures Rest(Step(c, DataFails)) && Blocked(Step(c, DataFails))
  {
    StepRest(c, DataFails);
    var s := c.(dtp := c.dtp.(link := Down));
    if !Forgiven(s) {
      LivePiError(s);
    }
  }

  /** waitForDtpToConnect survives a refused data connection for good: in every state that
      follows, whatever is enqueued or connected anew, nothing is awaited but the reply to an
      earlier ABOR, so no line is ever written again, no data connection is opened, and a command
      that has lines to write hangs. */
  lemma RefusedDataStalls(ip6: bool, local: string, plan: seq<seq<Request>>, es: seq<Event>,
                          more: seq<Event>)
    requires Allowed(Init(ip6, local, plan), es)
    requires var c := Run(Init(ip6, local, plan), es);
             Enabled(c, DataFails) && Allowed(Step(c, DataFails), more)
    ensures var d := Run(Step(Run(Init(ip6, local, plan), es), DataFails), more);
            && Blocked(d) && d.pi.state != Waiting
            && (Unsettled(d) == [] || Unsettled(d) == [AborLine])
            && (Running(d.ftp) && d.pi.queue != [] ==> Hung(d))
  {
    InitRest(ip6, local, plan);
    RunRest(Init(ip6, local, plan), es);
    var c := Run(Init(ip6, local, plan), es);
    RefusedBlocks(c);
    BlockedRun(Step(c, DataFails), more);
    BlockedRests(Run(Step(c, DataFails), more));
  }
}
