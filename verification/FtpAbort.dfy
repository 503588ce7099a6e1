/**
 When abort() may be called: exactly while a reply is awaited. Otherwise some run that follows
 uses a reply for a line that did not cause it, and a reply can be lost, so that the interpreter
 waits although the server has answered everything.
 */
module FtpAbort {
  import opened Text
  import opened FtpTypes
  import opened FtpSpec
  import opened FtpRun
  import opened FtpControl
  import opened FtpLockstep
  import opened FtpScript
  import opened FtpTransfer
  import opened FtpSession

  /** Every reply was used for the line that caused it, and what is awaited is still to come. */
  ghost predicate InStep(c: Client) {
    Attributed(c.past.log) && !Forsaken(c)
  }

  /** A reply is awaited although none is left to come. */
  predicate Forsaken(c: Client) { c.pi.state == Waiting && Unsettled(c) == [] }

  lemma RestInStep(c: Client)
    requires Rest(c)
    ensures InStep(c)
  {
    if c.pi.waitClose {
      assert Unsettled(c)[0] == c.pi.cur.value;
    } else {
      assert Unsettled(c) == Outstanding(c);
    }
  }

  lemma WaitingStaysInStep(c: Client, more: seq<Event>)
    requires Rest(c) && Enabled(c, AbortCalled) && Allowed(Step(c, AbortCalled), more)
    ensures InStep(Run(Step(c, AbortCalled), more))
  {
    StepRest(c, AbortCalled);
    RunRest(Step(c, AbortCalled), more);
    RestInStep(Run(Step(c, AbortCalled), more));
  }

  // ----------------------------------------------------- abort() while no reply is awaited

  /** What abort() leaves behind: ABOR is written and the abort state is armed. */
  ghost predicate Armed(c: Client, a: Client) {
    && a.pi == c.pi.(queue := [], abort := AbortStarted)
    && a.net == c.net.(unanswered := [AborLine]) && a.past.log == c.past.log
  }

  lemma AbortArms(c: Client)
    requires Rest(c) && c.ftp.pending != [] && c.pi.abort == NoAbort && c.pi.state != Waiting
    ensures Armed(c, Step(c, AbortCalled))
    ensures c.net.inbox == [] && !c.pi.busy && !c.pi.waitClose && Attributed(c.past.log)
  {
    assert Outstanding(c) == [] && c.net.inbox == [] && c.net.unanswered == [];
  }

  lemma LogSpoilt(log: seq<Handling>, h: Handling)
    requires match h
             case Served(cause, current, _) => cause != current
             case Swallowed(cause) => cause != Some(AborLine)
             case Dropped(_) => true
    ensures !Attributed(log + [h])
  {
    assert (log + [h])[|log|] == h;
  }

  /** The answer to ABOR arrives alone. */
  lemma AborAnswered(a: Client, code: nat)
    requires a.net.unanswered == [AborLine] && a.net.inbox == [] && !a.net.greeting && a.net.ctrl == Up
    requires !a.pi.busy && !a.pi.waitClose && a.pi.abort == AbortStarted && code in {225, 502}
    ensures var r := Reply(code, false, Some(AborLine));
            && Enabled(a, Delivery([r]))
            && Answering(a, r).net == a.net.(unanswered := [])
            && var u := Serve(Advanced(Answering(a, r)), r);
            Step(a, Delivery([r])) == u.(pi := u.pi.(busy := false))
  {
    var r := Reply(code, false, Some(AborLine));
    var t := Taken(a, [r]);
    assert [r][1..] == [] && [AborLine][1..] == [];
    assert InOrder([AborLine], [r]) by { assert InOrder([], [r][1..]); }
    assert Left([AborLine], [r]) == Left([], [r][1..]) == [];
    assert t.net.inbox == [r];
    ReadLast(t, Answering(a, r), r);
  }

  /** In Idle the answer to ABOR is ignored, and the abort state stays armed. */
  lemma AbortWhileIdle(c: Client)
    requires Rest(c) && c.ftp.pending != [] && c.pi.abort == NoAbort && c.pi.state == Idle
    requires c.net.ctrl == Up
    ensures var a := Step(c, AbortCalled);
            var r := Reply(225, false, Some(AborLine));
            var d := Step(a, Delivery([r]));
            && Enabled(a, Delivery([r])) && !Attributed(d.past.log)
            && d.pi == c.pi.(queue := [], abort := WaitForAbortToFinish)
            && d.net == c.net.(unanswered := []) && d.ftp == a.ftp
  {
    var a := Step(c, AbortCalled);
    AbortArms(c);
    AborAnswered(a, 225);
    LogSpoilt(c.past.log, Dropped(Some(AborLine)));
  }

  /** After a greeting that was not 220 the answer to ABOR is taken for a greeting. */
  lemma AbortAfterGreeting(c: Client)
    requires Rest(c) && c.ftp.pending != [] && c.pi.abort == NoAbort && c.pi.state == Begin
    requires c.net.ctrl == Up && !c.net.greeting
    ensures var a := Step(c, AbortCalled);
            var r := Reply(502, false, Some(AborLine));
            Enabled(a, Delivery([r])) && !Attributed(Step(a, Delivery([r])).past.log)
  {
    var a := Step(c, AbortCalled);
    AbortArms(c);
    AborAnswered(a, 502);
    LogSpoilt(c.past.log, Served(Some(AborLine), c.pi.cur, 502));
  }

  /** Before the greeting: 120 takes the place of the answer to ABOR, and then 220 is swallowed. */
  lemma AbortBeforeGreeting(c: Client)
    requires Rest(c) && c.ftp.pending != [] && c.pi.abort == NoAbort && c.pi.state == Begin
    requires c.net.ctrl == Up && c.net.greeting
    ensures var a := Step(c, AbortCalled);
            var d := Step(a, Delivery([Reply(120, false, None)]));
            var e := Step(d, Delivery([Reply(220, false, None)]));
            && Enabled(a, Delivery([Reply(120, false, None)]))
            && Enabled(d, Delivery([Reply(220, false, None)])) && !Attributed(e.past.log)
  {
    var a := Step(c, AbortCalled);
    AbortArms(c);
    GreetingDelayed(a);
    var d := Step(a, Delivery([Reply(120, false, None)]));
    GreetingSwallowed(d);
    LogSpoilt(d.past.log, Swallowed(None));
  }

  lemma GreetingDelayed(a: Client)
    requires a.net.inbox == [] && a.net.greeting && a.net.ctrl == Up
    requires !a.pi.busy && !a.pi.waitClose && a.pi.abort == AbortStarted && a.pi.state == Begin
    ensures var r := Reply(120, false, None);
            var d := Step(a, Delivery([r]));
            && Enabled(a, Delivery([r]))
            && d.pi == a.pi.(abort := WaitForAbortToFinish) && d.net == a.net
  {
    var r := Reply(120, false, None);
    var t := Taken(a, [r]);
    assert Greets([r]) by { assert Greets([r][1..]); }
    assert t.net.inbox == [r] && t.net.greeting;
    ReadLast(t, Answering(a, r), r);
  }

  lemma GreetingSwallowed(d: Client)
    requires d.net.inbox == [] && d.net.greeting && d.net.ctrl == Up
    requires !d.pi.busy && !d.pi.waitClose && d.pi.abort == WaitForAbortToFinish
    ensures var r := Reply(220, false, None);
            && Enabled(d, Delivery([r]))
            && Step(d, Delivery([r])).past.log == d.past.log + [Swallowed(None)]
  {
    var r := Reply(220, false, None);
    var t := Taken(d, [r]);
    assert t.net.inbox == [r];
    ReadLast(t, Answering(d, r), r);
  }

  /** At any other time some run that follows goes wrong. */
  lemma OtherwiseGoesWrong(c: Client)
    requires Rest(c) && c.ftp.pending != [] && c.pi.abort == NoAbort && c.net.ctrl == Up
    requires c.pi.state != Waiting
    ensures exists more ::
              Allowed(Step(c, AbortCalled), more) && !InStep(Run(Step(c, AbortCalled), more))
  {
    var a := Step(c, AbortCalled);
    RestState(c);
    if c.pi.state == Idle {
      AbortWhileIdle(c);
      OneStep(a, Delivery([Reply(225, false, Some(AborLine))]));
    } else if !c.net.greeting {
      AbortAfterGreeting(c);
      OneStep(a, Delivery([Reply(502, false, Some(AborLine))]));
    } else {
      AbortBeforeGreeting(c);
      TwoSteps(a, Delivery([Reply(120, false, None)]), Delivery([Reply(220, false, None)]));
    }
  }

  /** abort() keeps the engine in step with the server, in all runs that follow, if and only if
      it is called while a reply is awaited: whatever the command, a STOR with its data
      connection and a reply that is held included. */
  lemma AbortNeedsWaiting(ip6: bool, local: string, plan: seq<seq<Request>>, es: seq<Event>)
    requires Allowed(Init(ip6, local, plan), es)
    requires var c := Run(Init(ip6, local, plan), es);
             c.ftp.pending != [] && c.net.ctrl == Up && c.pi.abort == NoAbort
    ensures var c := Run(Init(ip6, local, plan), es);
            var a := Step(c, AbortCalled);
            (forall more :: Allowed(a, more) ==> InStep(Run(a, more))) <==> c.pi.state == Waiting
  {
    var c := Run(Init(ip6, local, plan), es);
    InitRest(ip6, local, plan);
    RunRest(Init(ip6, local, plan), es);
    if c.pi.state == Waiting {
      forall more | Allowed(Step(c, AbortCalled), more)
        ensures InStep(Run(Step(c, AbortCalled), more))
      {
        WaitingStaysInStep(c, more);
      }
    } else {
      OtherwiseGoesWrong(c);
    }
  }

  // ------------------------------------------------------------------------- a lost reply

  /** The armed abort state takes the reply to the next line for the one to ABOR. */
  lemma SwallowedReplyStalls(c: Client, l: Line, r: Reply)
    requires c.pi.abort == WaitForAbortToFinish && c.pi.state == Waiting && c.pi.cur == Some(l)
    requires !c.pi.waitClose && !c.pi.busy && c.net.inbox == [] && !c.net.greeting && c.net.ctrl == Up
    requires c.net.unanswered == [l] && r.cause == Some(l) && Final(r.code) && 100 <= r.code < 600
    requires l != AborLine && !Holds(c, r)
    ensures var d := Step(c, Delivery([r]));
            Enabled(c, Delivery([r])) && Forsaken(d) && d.pi.cur == Some(l)
  {
    var t := Taken(c, [r]);
    assert InOrder([l], [r]) by { assert InOrder([], [r][1..]); }
    assert t.net.inbox == [r] && [r][1..] == [];
    assert Left([l], [r]) == Left([], [r][1..]) == [];
    ReadLast(t, Answering(c, r), r);
  }

  ghost predicate CanForsake(a: Client) {
    exists more :: Allowed(a, more) && Forsaken(Run(a, more))
  }

  lemma ForsakesBefore(a: Client, e: Event)
    requires Enabled(a, e) && CanForsake(Step(a, e))
    ensures CanForsake(a)
  {
    var more :| Allowed(Step(a, e), more) && Forsaken(Run(Step(a, e), more));
    StepThen(a, e, more);
    assert Forsaken(Run(a, [e] + more));
  }

  /** The command starts while the abort state is armed. */
  lemma StartForsakes(d: Client, cmd: Cmd)
    requires d.ftp.pending == [cmd] && TransferKind(cmd.kind) && d.ftp.timer
    requires Shape(Request(cmd.kind, cmd.raw, cmd.sink))
    requires d.pi.state == Idle && d.pi.queue == [] && !d.pi.waitConn && !d.pi.waitClose && !d.pi.busy
    requires d.pi.abort == WaitForAbortToFinish
    requires d.net.ctrl == Up && d.net.inbox == [] && !d.net.greeting && d.net.unanswered == []
    ensures CanForsake(d)
  {
    var l := cmd.raw[0];
    var r := Reply(200, false, Some(l));
    Issued(d.(ftp := d.ftp.(timer := false)), cmd);
    var f := Step(d, Fire);
    SwallowedReplyStalls(f, l, r);
    assert Allowed(Step(f, Delivery([r])), []);
    ForsakesBefore(f, Delivery([r]));
    ForsakesBefore(d, Fire);
  }

  /** A transfer that is aborted before its single shot fires: the server answers ABOR and then
      the first line, and the engine waits for a reply that it has thrown away. */
  lemma AbortBeforeFire(c: Client, cmd: Cmd)
    requires Rest(c) && c.ftp.pending == [cmd] && TransferKind(cmd.kind) && c.ftp.timer
    requires Shape(Request(cmd.kind, cmd.raw, cmd.sink))
    requires c.pi.state == Idle && c.pi.abort == NoAbort && !c.pi.waitConn && c.net.ctrl == Up
    ensures CanForsake(Step(c, AbortCalled))
  {
    AbortWhileIdle(c);
    AbortArms(c);
    var a := Step(c, AbortCalled);
    var e := Delivery([Reply(225, false, Some(AborLine))]);
    AbortKeepsHead(c, cmd);
    StartForsakes(Step(a, e), cmd);
    ForsakesBefore(a, e);
  }

  lemma AbortKeepsHead(c: Client, cmd: Cmd)
    requires c.ftp.pending == [cmd] && c.ftp.timer && Rest(c)
    ensures Step(c, AbortCalled).ftp.pending == [cmd] && Step(c, AbortCalled).ftp.timer
    ensures !c.net.greeting || c.net.ctrl != Up || c.pi.state == Begin
  {
    assert [cmd][..1] == [cmd];
  }

  lemma AbortBeforeStart(c: Client, q: Request)
    requires Rest(c) && AtRest(c) && Shape(q) && TransferKind(q.kind)
    ensures Enabled(c, UserAdds(q)) && AbortForsakes(Step(c, UserAdds(q)))
  {
    StepRest(c, UserAdds(q));
    var d := Step(c, UserAdds(q));
    assert d.ftp.pending == [Cmd(c.ftp.nextId, q.kind, q.raw, q.sink)];
    AbortBeforeFire(d, d.ftp.pending[0]);
  }

  ghost predicate AbortForsakes(c: Client) {
    c.ftp.pending != [] && c.pi.state == Idle && CanForsake(Step(c, AbortCalled))
  }

  ghost predicate CanReachForsaking(c: Client) {
    exists es :: Allowed(c, es) && AbortForsakes(Run(c, es))
  }

  lemma ReachesBefore(c: Client, e: Event)
    requires Enabled(c, e) && CanReachForsaking(Step(c, e))
    ensures CanReachForsaking(c)
  {
    var es :| Allowed(Step(c, e), es) && AbortForsakes(Run(Step(c, e), es));
    StepThen(c, e, es);
    assert AbortForsakes(Run(c, [e] + es));
  }

  lemma {:induction false} ReachesAfter(c: Client, es: seq<Event>)
    requires Allowed(c, es) && CanReachForsaking(Run(c, es))
    ensures CanReachForsaking(c)
    decreases |es|
  {
    if es != [] {
      ReachesAfter(Step(c, es[0]), es[1..]);
      ReachesBefore(c, es[0]);
    }
  }

  lemma ForsakesNext(d: Client, q: Request)
    requires Rest(d) && AtRest(d) && Shape(q) && TransferKind(q.kind)
    ensures CanReachForsaking(d)
  {
    AbortBeforeStart(d, q);
    OneStep(d, UserAdds(q));
    assert AbortForsakes(Run(d, [UserAdds(q)]));
  }

  /** Such a run from a new object on. */
  lemma AbortedListForsaken(ip6: bool, local: string, q: Request)
    requires Shape(q) && TransferKind(q.kind)
    ensures CanReachForsaking(Init(ip6, local, []))
  {
    Starts(ip6, local);
    InitRest(ip6, local, []);
    RunRest(Init(ip6, local, []), Start());
    ForsakesNext(Run(Init(ip6, local, []), Start()), q);
    ReachesAfter(Init(ip6, local, []), Start());
  }
}
