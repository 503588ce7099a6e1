/**
 Which running commands can still finish: in strict runs, as long as the command connection is not
 closed, exactly those that are not hung.
 */
module FtpProgress {
  import opened Text
  import opened FtpTypes
  import opened FtpSpec
  import opened FtpRun
  import opened FtpControl
  import opened FtpLockstep
  import opened FtpStalls
  import opened FtpScript
  import opened FtpTransfer
  import opened FtpDelivery
  import opened FtpSession

  // ------------------------------------------------------------------- signals only come on

  predicate Extends(c: Client, r: Client) { c.past.trace <= r.past.trace }

  lemma {:induction false} GrowsStartNextCommand(c: Client)
    ensures Extends(c, StartNextCommand(c))
    decreases Work(c), 6
  {
    if c.ftp.pending != [] {
      GrowsDispatch(Prepared(Begun(c)));
    }
  }

  lemma {:induction false} GrowsDispatch(c: Client)
    requires c.ftp.pending != []
    ensures Extends(c, Dispatch(c))
    decreases Work(c), 5
  {
    match c.ftp.pending[0].kind
    case SetTransferMode => GrowsPiFinished(c);
    case SetProxy => GrowsPiFinished(ProxySet(c));
    case ConnectToHost => GrowsPiConnectState(c, HostLookup);
    case _ => GrowsSendCommands(c, c.ftp.pending[0].raw);
  }

  lemma {:induction false} GrowsPiConnectState(c: Client, q: QState)
    ensures Extends(c, PiConnectState(c, q))
    decreases Work(c), 3
  {
    if c.ftp.closeWait {
      GrowsPiFinished(c.(ftp := c.ftp.(state := q, closeWait := false)));
    }
  }

  lemma {:induction false} GrowsPiFinished(c: Client)
    ensures Extends(c, PiFinished(c))
    decreases Work(c), 2
  {
    if c.ftp.pending != [] && !(c.ftp.pending[0].kind == Close && c.ftp.state != Unconnected) {
      GrowsStartNextCommand(Popped(c, false, AccountOf(c)));
    }
  }

  lemma {:induction false} GrowsPiError(c: Client)
    ensures Extends(c, PiError(c))
    decreases Work(c), 2
  {
    if c.ftp.pending != [] && !Forgiven(c) {
      var s := Cleared(c);
      GrowsStartNextCommand(Popped(s, true, AccountOf(c).(data := s.dtp.link)));
    }
  }

  lemma {:induction false} GrowsSendCommands(c: Client, cmds: seq<Line>)
    ensures Extends(c, SendCommands(c, cmds))
    decreases Work(c), 4
  {
    if c.pi.queue == [] {
      if c.net.ctrl != Up || c.pi.state != Idle {
        GrowsPiError(c);
      } else {
        GrowsStartNextCmd(c.(pi := c.pi.(queue := cmds)));
      }
    }
  }

  lemma {:induction false} GrowsStartNextCmd(c: Client)
    ensures Extends(c, StartNextCmd(c))
    decreases Work(c), 3
  {
    if !c.pi.waitConn && c.pi.queue == [] {
      GrowsPiFinished(c.(pi := c.pi.(cur := None)));
    }
  }

  /** The command of this id has finished since the trace had length n. */
  ghost predicate Ended(d: Client, id: nat, n: nat) {
    exists i :: n <= i < |d.past.trace| && d.past.trace[i].Finished? && d.past.trace[i].cmd.id == id
  }

  lemma EndedExtends(c: Client, d: Client, id: nat, n: nat)
    requires Ended(c, id, n) && Extends(c, d)
    ensures Ended(d, id, n)
  {
    var i :| n <= i < |c.past.trace| && c.past.trace[i].Finished? && c.past.trace[i].cmd.id == id;
    assert d.past.trace[i] == c.past.trace[i];
  }

  lemma PoppedEnds(c: Client, failed: bool, a: Account, n: nat)
    requires c.ftp.pending != [] && n <= |c.past.trace|
    ensures Ended(Popped(c, failed, a), c.ftp.pending[0].id, n)
  {
    var t := Popped(c, failed, a).past.trace;
    assert t[|c.past.trace|] == Finished(c.ftp.pending[0], failed, a);
  }

  lemma FinishedEnds(c: Client, n: nat)
    requires c.ftp.pending != [] && n <= |c.past.trace|
    requires c.ftp.pending[0].kind == Close ==> c.ftp.state == Unconnected
    ensures Ended(PiFinished(c), c.ftp.pending[0].id, n)
  {
    var s := Popped(c, false, AccountOf(c));
    PoppedEnds(c, false, AccountOf(c), n);
    GrowsStartNextCommand(s);
    EndedExtends(s, PiFinished(c), c.ftp.pending[0].id, n);
  }

  lemma ErrorEnds(c: Client, n: nat)
    requires c.ftp.pending != [] && !Forgiven(c) && n <= |c.past.trace|
    ensures Ended(PiError(c), c.ftp.pending[0].id, n)
  {
    var s := Cleared(c);
    var a := AccountOf(c).(data := s.dtp.link);
    PoppedEnds(s, true, a, n);
    GrowsStartNextCommand(Popped(s, true, a));
    EndedExtends(Popped(s, true, a), PiError(c), c.ftp.pending[0].id, n);
  }

  // --------------------------------------------------------------------- continuations

  ghost predicate CanEnd(c: Client, id: nat, n: nat) {
    exists es :: Allowed(c, es) && Ended(Run(c, es), id, n)
  }

  lemma EndsBefore(c: Client, e: Event, id: nat, n: nat)
    requires Enabled(c, e) && CanEnd(Step(c, e), id, n)
    ensures CanEnd(c, id, n)
  {
    var es :| Allowed(Step(c, e), es) && Ended(Run(Step(c, e), es), id, n);
    StepThen(c, e, es);
    assert Ended(Run(c, [e] + es), id, n);
  }

  lemma EndsNow(c: Client, e: Event, id: nat, n: nat)
    requires Enabled(c, e) && Ended(Step(c, e), id, n)
    ensures CanEnd(c, id, n)
  {
    assert Allowed(Step(c, e), []);
    EndsBefore(c, e, id, n);
  }

  /** The command runs, in passive mode, and nothing was aborted. */
  ghost predicate Going(c: Client, id: nat, n: nat) {
    && Running(c.ftp) && c.ftp.pending[0].id == id && n <= |c.past.trace|
    && c.net.ctrl == Up && c.pi.abort == NoAbort
    && (forall l :: l in c.pi.queue ==> l.verb !in {PORT, EPRT}) && !CurIs(c.pi, EPRT)
  }

  lemma WaitingAlone(c: Client)
    requires Rest(c) && !c.pi.waitClose && c.pi.state == Waiting && c.pi.abort == NoAbort
    ensures c.pi.cur.Some? && c.net.unanswered == [c.pi.cur.value] && c.net.inbox == []
    ensures !c.pi.busy && !c.pi.waitConn && (c.net.ctrl == Up ==> !c.net.greeting)
  {
    assert Outstanding(c) == c.net.unanswered;
  }

  /** The server refuses the line that is on the wire. */
  function Refusal(c: Client): Reply { Reply(500, false, c.pi.cur) }

  function RefusedAt(c: Client): Client {
    Answered(Logged(Answering(c, Refusal(c)), Served(c.pi.cur, c.pi.cur, 500)), 500)
  }

  lemma RefusalStep(c: Client)
    requires Rest(c) && !c.pi.waitClose && c.pi.state == Waiting && c.pi.abort == NoAbort && c.net.ctrl == Up
    ensures Enabled(c, Delivery([Refusal(c)]))
    ensures var s := RefusedAt(c);
            var d := React(s);
            && Step(c, Delivery([Refusal(c)])) == d.(pi := d.pi.(busy := false))
            && s.ftp == c.ftp && s.past.trace == c.past.trace && s.net.ctrl == Up && s.net.ip6 == c.net.ip6
            && s.pi == c.pi.(state := Failure, busy := true)
  {
    WaitingAlone(c);
    OneReply(c, c.pi.cur.value, Refusal(c));
    var s := RefusedAt(c);
    assert SpecialAction(s, Refusal(c)) == s;
  }

  /** A line of the command is on the wire. */
  ghost predicate OnWire(c: Client, id: nat, n: nat) {
    Going(c, id, n) && c.pi.state == Waiting
  }

  function Effort(c: Client): nat { 2 * |c.pi.queue| + (if CurIs(c.pi, EPSV) then 1 else 0) }

  lemma SendWaits(t: Client, l: Line, id: nat, n: nat)
    requires Going(t, id, n) && t.pi.queue != [] && l.verb != EPRT
    ensures OnWire(Send(t, l), id, n) && Effort(Send(t, l)) < 2 * |t.pi.queue|
    ensures Send(t, l).pi.waitClose == t.pi.waitClose
  {
    assert forall x :: x in t.pi.queue[1..] ==> x in t.pi.queue;
  }

  lemma NextWaits(t: Client, id: nat, n: nat)
    requires Going(t, id, n) && t.pi.queue != [] && !t.pi.waitConn
    ensures OnWire(StartNextCmd(t), id, n) && Effort(StartNextCmd(t)) < 2 * |t.pi.queue|
    ensures StartNextCmd(t).pi.waitClose == t.pi.waitClose
  {
    assert t.pi.queue[0] in t.pi.queue;
    SendWaits(t, Edited(t).value, id, n);
  }

  /** The next line is on the wire. */
  ghost predicate Advances(s: Client, d: Client, id: nat, n: nat) {
    OnWire(d, id, n) && Effort(d) < Effort(s) && d.pi.waitClose == s.pi.waitClose
  }

  /** A refused EPSV: PASV is on the wire. */
  lemma RefusedRetries(s: Client, id: nat, n: nat)
    requires Going(s, id, n) && s.pi.state == Failure && CurIs(s.pi, EPSV) && !s.pi.waitConn
    ensures Advances(s, React(s), id, n)
  {
    var t := s.(pi := s.pi.(extended := false, queue := [Line(PASV, "")] + s.pi.queue, state := Idle));
    RetriedSends(s, t);
    assert React(s) == StartNextCmd(t);
  }

  /** A refused SIZE or ALLO: the next line is on the wire, or the command has finished. */
  lemma RefusedForgiven(s: Client, id: nat, n: nat)
    requires Going(s, id, n) && s.pi.state == Failure && Forgiven(s) && !s.pi.waitConn
    ensures Ended(React(s), id, n) || Advances(s, React(s), id, n)
  {
    var t := s.(pi := s.pi.(state := Idle));
    assert React(s) == StartNextCmd(t);
    if t.pi.queue == [] {
      FinishedEnds(t.(pi := t.pi.(cur := None)), n);
    } else {
      NextWaits(t, id, n);
    }
  }

  /** Any other refusal ends the command. */
  lemma RefusedFatal(s: Client, id: nat, n: nat)
    requires Going(s, id, n) && s.pi.state == Failure && !Forgiven(s) && !CurIs(s.pi, EPSV)
    ensures Ended(React(s), id, n)
  {
    var r := PiError(s);
    ErrorEnds(s, n);
    if r.pi.state != Waiting {
      GrowsStartNextCmd(r.(pi := r.pi.(state := Idle)));
      EndedExtends(r, React(s), id, n);
    }
  }

  /** Refusing one line after the other brings the command to its end. */
  lemma {:induction false} WaitingEnds(c: Client, id: nat, n: nat)
    requires Rest(c) && OnWire(c, id, n) && !c.pi.waitClose
    ensures CanEnd(c, id, n)
    decreases Effort(c)
  {
    var e := Delivery([Refusal(c)]);
    WaitingAlone(c);
    RefusalStep(c);
    var s := RefusedAt(c);
    if CurIs(s.pi, EPSV) {
      RefusedRetries(s, id, n);
    } else if Forgiven(s) {
      RefusedForgiven(s, id, n);
    } else {
      RefusedFatal(s, id, n);
    }
    RefusedGoesOn(c, s, id, n);
    if Ended(Step(c, e), id, n) {
      EndsNow(c, e, id, n);
    } else {
      StepRest(c, e);
      WaitingEnds(Step(c, e), id, n);
      EndsBefore(c, e, id, n);
    }
  }

  lemma RefusedGoesOn(c: Client, s: Client, id: nat, n: nat)
    requires s == RefusedAt(c) && s.pi.queue == c.pi.queue && s.pi.cur == c.pi.cur
    requires Step(c, Delivery([Refusal(c)])) == React(s).(pi := React(s).pi.(busy := false))
    requires s.pi.waitClose == c.pi.waitClose
    requires Ended(React(s), id, n) || Advances(s, React(s), id, n)
    ensures var d := Step(c, Delivery([Refusal(c)])); Ended(d, id, n) || Advances(c, d, id, n)
  {
  }

  // --------------------------------------------------------------- what else it can wait for

  /** Close waits for the connection to go down. */
  lemma CloseEnds(c: Client, id: nat, n: nat)
    requires Rest(c) && Going(c, id, n) && c.ftp.closeWait && !c.pi.waitClose
    ensures CanEnd(c, id, n)
  {
    var l := Lost(c);
    var s := l.(net := l.net.(ctrl := Down, inbox := []), ftp := c.ftp.(state := Unconnected, closeWait := false));
    assert Step(c, ControlCloses) == PiFinished(s);
    FinishedEnds(s, n);
    EndsNow(c, ControlCloses, id, n);
  }

  /** The data connection comes up, and the line that moves the data goes out. */
  lemma OpeningEnds(c: Client, id: nat, n: nat)
    requires Rest(c) && Kept(c) && Strict(c.past) && Going(c, id, n) && c.dtp.link == Opening
    ensures CanEnd(c, id, n)
  {
    OpeningFacts(c);
    OpeningLine(c);
    OpeningSends(c);
    var u := c.(dtp := c.dtp.(link := Up), pi := c.pi.(waitConn := false), now := c.now.(dataUp := true));
    assert c.pi.queue[0] in c.pi.queue;
    SendWaits(u, c.pi.queue[0], id, n);
    StepRest(c, DataOpens);
    WaitingEnds(Step(c, DataOpens), id, n);
    EndsBefore(c, DataOpens, id, n);
  }

  /** The next line is on the wire, Close waits, or the command has finished. */
  ghost predicate Continues(d: Client, id: nat, n: nat) {
    Ended(d, id, n) || OnWire(d, id, n) || (Going(d, id, n) && d.ftp.closeWait)
  }

  /** After an accepted line. */
  lemma AcceptedGoes(t: Client, id: nat, n: nat)
    requires Going(t, id, n) && !t.pi.waitConn
    ensures Continues(StartNextCmd(t), id, n)
  {
    if t.pi.queue != [] {
      NextWaits(t, id, n);
    } else {
      var u := t.(pi := t.pi.(cur := None));
      if u.ftp.pending[0].kind == Close && u.ftp.state != Unconnected {
        assert PiFinished(u) == u.(ftp := u.ftp.(closeWait := true));
      } else {
        FinishedEnds(u, n);
      }
    }
  }

  /** What the held reply leads to when the data connection closes. */
  function Released(c: Client): Client {
    var s := c.(dtp := c.dtp.(link := Down, dev := false));
    var u := Answered(Logged(s, Served(s.pi.held.cause, s.pi.cur, s.pi.held.code)), s.pi.held.code);
    u.(pi := u.pi.(state := Idle))
  }

  lemma HeldReleased(c: Client)
    requires Held(c) && c.pi.abort == NoAbort
    ensures var s := c.(dtp := c.dtp.(link := Down, dev := false));
            && ProcessReply(s, s.pi.held) == (StartNextCmd(Released(c)), true)
            && c.net.inbox == []
    ensures Released(c).ftp == c.ftp && Released(c).pi == c.pi.(state := Idle)
    ensures Released(c).net == c.net && Released(c).past.trace == c.past.trace
  {
    var s := c.(dtp := c.dtp.(link := Down, dev := false));
    var u := Answered(Logged(s, Served(s.pi.held.cause, s.pi.cur, s.pi.held.code)), s.pi.held.code);
    assert SpecialAction(u, s.pi.held) == u;
    assert React(u) == StartNextCmd(Released(c));
  }

  lemma ContinuesFlags(d: Client, id: nat, n: nat)
    requires Continues(d, id, n)
    ensures Continues(d.(pi := d.pi.(busy := false, waitClose := false)), id, n)
  {
  }

  lemma ContinuesEnds(d: Client, id: nat, n: nat)
    requires Rest(d) && Continues(d, id, n) && !d.pi.waitClose
    ensures CanEnd(d, id, n)
  {
    if Ended(d, id, n) {
      assert Allowed(d, []) && Run(d, []) == d;
    } else if OnWire(d, id, n) {
      WaitingEnds(d, id, n);
    } else {
      CloseEnds(d, id, n);
    }
  }

  /** A reply is held until the data connection closes. */
  lemma HeldEnds(c: Client, id: nat, n: nat)
    requires Rest(c) && Going(c, id, n) && c.pi.waitClose
    ensures CanEnd(c, id, n)
  {
    HeldReleased(c);
    var t := Released(c);
    HeldIdle(c);
    AcceptedGoes(t, id, n);
    var d := StartNextCmd(t);
    ContinuesFlags(d, id, n);
    assert Step(c, DataCloses) == d.(pi := d.pi.(busy := false, waitClose := false));
    DataClosesRest(c);
    ContinuesEnds(Step(c, DataCloses), id, n);
    EndsBefore(c, DataCloses, id, n);
  }

  lemma HeldIdle(c: Client)
    requires Rest(c) && c.pi.waitClose
    ensures !c.pi.waitConn && Enabled(c, DataCloses)
  {
  }

  /** The connection is being set up. */
  lemma DialEnds(c: Client, n: nat)
    requires Rest(c) && Running(c.ftp) && n <= |c.past.trace| && c.net.ctrl == Opening
    ensures CanEnd(c, c.ftp.pending[0].id, n)
  {
    ConnectingKeeps(c);
    var s := c.(net := c.net.(ctrl := Down), ftp := c.ftp.(state := Unconnected));
    assert Step(c, ControlFails) == PiError(s);
    ErrorEnds(s, n);
    EndsNow(c, ControlFails, c.ftp.pending[0].id, n);
  }

  /** The greeting is still to come. */
  lemma GreetingEnds(c: Client, n: nat)
    requires Rest(c) && Running(c.ftp) && n <= |c.past.trace|
    requires c.net.ctrl == Up && c.pi.state == Begin && c.net.greeting
    ensures CanEnd(c, c.ftp.pending[0].id, n)
  {
    var r := Reply(220, false, None);
    var t := Taken(c, [r]);
    GreetingAwaited(c);
    assert t.net.inbox == [r];
    var s := Answering(c, r);
    ReadLast(t, s, r);
    assert ProcessReply(s, r) == (Serve(s, r), true);
    WelcomeEnds(s, r, n);
    EndsNow(c, Delivery([r]), c.ftp.pending[0].id, n);
  }

  lemma GreetingAwaited(c: Client)
    requires Rest(c) && Running(c.ftp) && c.net.ctrl == Up && c.pi.state == Begin && c.net.greeting
    ensures !c.pi.waitClose && !c.pi.busy && c.net.inbox == [] && c.pi.abort == NoAbort
    ensures HeadIs(c, ConnectToHost)
  {
  }

  lemma WelcomeEnds(s: Client, r: Reply, n: nat)
    requires s.pi.state == Begin && HeadIs(s, ConnectToHost) && n <= |s.past.trace| && r.code == 220
    ensures Ended(Serve(s, r), s.ftp.pending[0].id, n)
  {
    var u := Logged(s, Served(r.cause, s.pi.cur, r.code)).(pi := s.pi.(state := Idle));
    var v := PiFinished(u);
    FinishedEnds(u, n);
    assert SpecialAction(v, r) == v;
    GrowsReact(v);
    EndedExtends(v, React(v), s.ftp.pending[0].id, n);
  }

  lemma GrowsReact(v: Client)
    ensures Extends(v, React(v))
  {
    match v.pi.state
    case Success => GrowsStartNextCmd(v.(pi := v.pi.(state := Idle)));
    case Idle => GrowsStartNextCmd(v);
    case Failure =>
      GrowsPiError(v);
      var s := Refused(v);
      GrowsStartNextCmd(s.(pi := s.pi.(state := Idle)));
    case _ =>
  }

  // --------------------------------------------------------------------------- the theorem

  lemma StrictGoes(c: Client)
    requires Rest(c) && Kept(c) && Strict(c.past) && Running(c.ftp) && c.net.ctrl == Up
    ensures Going(c, c.ftp.pending[0].id, |c.past.trace|)
  {
  }

  lemma UnhungWaits(c: Client)
    requires Rest(c) && Running(c.ftp) && c.net.ctrl == Up && !Hung(c)
    ensures || c.pi.waitClose || c.pi.state == Waiting || c.dtp.link == Opening || c.ftp.closeWait
            || (c.pi.state == Begin && c.net.greeting)
  {
    RestState(c);
  }

  lemma UnhungEnds(c: Client)
    requires Rest(c) && Kept(c) && Strict(c.past) && Running(c.ftp) && c.net.ctrl == Up && !Hung(c)
    ensures CanEnd(c, c.ftp.pending[0].id, |c.past.trace|)
  {
    var id, n := c.ftp.pending[0].id, |c.past.trace|;
    StrictGoes(c);
    UnhungWaits(c);
    if c.pi.waitClose {
      HeldEnds(c, id, n);
    } else if c.pi.state == Waiting {
      WaitingEnds(c, id, n);
    } else if c.dtp.link == Opening {
      OpeningEnds(c, id, n);
    } else if c.ftp.closeWait {
      CloseEnds(c, id, n);
    } else {
      GreetingEnds(c, n);
    }
  }

  lemma HungNeverEnds(c: Client)
    requires Rest(c) && Hung(c)
    ensures !CanEnd(c, c.ftp.pending[0].id, |c.past.trace|)
  {
    forall es | Allowed(c, es) ensures !Ended(Run(c, es), c.ftp.pending[0].id, |c.past.trace|) {
      HungRun(c, es);
    }
  }

  /** In a strict run, while the command connection is not closed, the command that runs can still
      finish, in some continuation, if and only if it is not hung. */
  lemma FinishesUnlessHung(ip6: bool, local: string, plan: seq<seq<Request>>, es: seq<Event>)
    requires Allowed(Init(ip6, local, plan), es) && ShapedPlan(plan)
    requires var c := Run(Init(ip6, local, plan), es);
             Strict(c.past) && Running(c.ftp) && c.net.ctrl != Down
    ensures var c := Run(Init(ip6, local, plan), es);
            CanEnd(c, c.ftp.pending[0].id, |c.past.trace|) <==> !Hung(c)
  {
    InitKept(ip6, local, plan);
    RunRest(Init(ip6, local, plan), es);
    RunKept(Init(ip6, local, plan), es);
    FinishesExactly(Run(Init(ip6, local, plan), es));
  }

  lemma FinishesExactly(c: Client)
    requires Rest(c) && Kept(c) && Strict(c.past) && Running(c.ftp) && c.net.ctrl != Down
    ensures CanEnd(c, c.ftp.pending[0].id, |c.past.trace|) <==> !Hung(c)
  {
    if Hung(c) {
      HungNeverEnds(c);
    } else if c.net.ctrl == Opening {
      DialEnds(c, |c.past.trace|);
    } else {
      UnhungEnds(c);
    }
  }
}
