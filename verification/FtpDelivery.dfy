/**
 Every event keeps the invariant of FtpTransfer, so that the account of every finished command
 is good: its lines refine its script, and a finished download is complete.
 */
module FtpDelivery {
  import opened Text
  import opened FtpTypes
  import opened FtpSpec
  import opened FtpRun
  import opened FtpControl
  import opened FtpLockstep
  import opened FtpStalls
  import opened FtpScript
  import opened FtpTransfer

  ghost predicate StrictHeld(c: Client) {
    Strict(c.past) && c.pi.waitClose ==> StrictReply(c.pi.held)
  }

  ghost predicate Kept(c: Client) { Told(c) && StrictHeld(c) }

  /** The invariant of all runs. */
  ghost predicate Sound(c: Client) { Kept(c) || Stuck(c) }

  // ------------------------------------------------------------------------- one delivery

  ghost predicate StrictInbox(c: Client) {
    Strict(c.past) ==> forall r :: r in c.net.inbox ==> Proper(c.dtp.link, r)
  }

  lemma {:induction false} ReadLoopTold(c: Client, owed: seq<Line>)
    requires Receiving(c, owed) && Told(c) && StrictInbox(c)
    ensures Sound(ReadLoop(c))
    decreases |c.net.inbox|, 1
  {
    if c.net.inbox != [] {
      if Final(c.net.inbox[0].code) {
        FinalTold(c, owed);
      } else {
        PreliminaryTold(c, owed);
      }
    }
  }

  lemma {:induction false} PreliminaryTold(c: Client, owed: seq<Line>)
    requires Receiving(c, owed) && Told(c) && StrictInbox(c)
    requires c.net.inbox != [] && !Final(c.net.inbox[0].code)
    ensures Sound(ReadLoop(c))
    decreases |c.net.inbox|, 0
  {
    var r := c.net.inbox[0];
    OwedShape(c, owed);
    var s := c.(net := c.net.(inbox := c.net.inbox[1..]), pi := c.pi.(busy := true));
    PreliminaryServe(s, r);
    AttributedAppend(c.past.log, r.cause, r.code);
    var t := Logged(s, Served(r.cause, s.pi.cur, r.code));
    assert ProcessReply(s, r) == (t, true);
    var u := t.(pi := t.pi.(busy := false));
    assert Ready(u, owed) == Logged(Ready(c, owed), Served(r.cause, s.pi.cur, r.code));
    ReadLoopTold(u, owed);
  }

  /** Told does not look at the network, the log or the flags of the reader. */
  lemma ToldFrame(c: Client, d: Client)
    requires Told(c)
    requires d.ftp == c.ftp && d.dtp == c.dtp && d.now == c.now && d.past.trace == c.past.trace
    requires Strict(d.past) ==> Strict(c.past) && d.pi.abort == NoAbort
    requires d.pi.state == c.pi.state && d.pi.queue == c.pi.queue && d.pi.cur == c.pi.cur
    requires d.pi.waitConn == c.pi.waitConn
    ensures Told(d)
  {
  }

  lemma AbortNotStrict(c: Client)
    requires Told(c) && c.pi.abort != NoAbort
    ensures !Strict(c.past)
  {
  }

  lemma FinalTold(c: Client, owed: seq<Line>)
    requires Receiving(c, owed) && Told(c) && StrictInbox(c)
    requires c.net.inbox != [] && Final(c.net.inbox[0].code)
    ensures Sound(ReadLoop(c))
  {
    var r := c.net.inbox[0];
    LastReply(c, owed);
    var s := c.(net := c.net.(inbox := []), pi := c.pi.(busy := true));
    if c.pi.abort != NoAbort {
      AbortNotStrict(c);
    }
    ToldFrame(c, s);
    if !Holds(s, r) && c.pi.abort != WaitForAbortToFinish {
      OwedShape(c, owed);
      ServingFirst(s, r, owed);
      AdvancedTold(s, r);
    }
    if !Holds(s, r) && c.pi.abort != WaitForAbortToFinish && Stuck(Serve(Advanced(s), r)) {
      ProcessStuck(s, r);
    } else {
      ProcessTold(s, r);
    }
    ReadLast(c, s, r);
  }

  lemma LastReply(c: Client, owed: seq<Line>)
    requires Receiving(c, owed) && c.net.inbox != [] && Final(c.net.inbox[0].code)
    ensures c.net.inbox == [c.net.inbox[0]] && owed != []
    ensures c.net.unanswered == owed[1..]
  {
    OwedShape(c, owed);
    assert InOrder(owed[1..], c.net.inbox[1..]);
    assert c.net.unanswered == Left(owed[1..], c.net.inbox[1..]);
  }

  lemma AdvancedTold(s: Client, r: Reply)
    requires Told(s) && Serving(Advanced(s), r) && !Holds(s, r)
    requires Strict(s.past) ==> Proper(s.dtp.link, r)
    ensures var t := Serve(Advanced(s), r);
            ToldOrStuck(t) && !t.pi.waitClose == !s.pi.waitClose && (Accepted(r.code) ==> Told(t))
  {
    if s.pi.abort != NoAbort {
      AbortNotStrict(s);
    }
    ToldFrame(s, Advanced(s));
    ServeTold(Advanced(s), r);
    LiveServe(Advanced(s), r);
  }

  lemma ProcessTold(s: Client, r: Reply)
    requires Told(s) && (Strict(s.past) ==> StrictReply(r)) && !s.pi.waitClose
    requires !Holds(s, r) && s.pi.abort != WaitForAbortToFinish ==>
               Told(Serve(Advanced(s), r)) && !Serve(Advanced(s), r).pi.waitClose
    ensures var (t, done) := ProcessReply(s, r);
            Kept(if done then t.(pi := t.pi.(busy := false)) else t)
  {
    var (t, done) := ProcessReply(s, r);
    if s.pi.abort != NoAbort {
      AbortNotStrict(s);
    }
    if Holds(s, r) || s.pi.abort == WaitForAbortToFinish {
      ToldFrame(s, t);
    }
    ToldIdleFlag(t);
  }

  lemma ProcessStuck(s: Client, r: Reply)
    requires !Holds(s, r) && s.pi.abort != WaitForAbortToFinish && Stuck(Serve(Advanced(s), r))
    ensures var (t, done) := ProcessReply(s, r);
            Stuck(if done then t.(pi := t.pi.(busy := false)) else t)
  {
  }

  lemma ToldIdleFlag(t: Client)
    requires Told(t)
    ensures Told(t.(pi := t.pi.(busy := false))) && Told(t.(pi := t.pi.(busy := false, waitClose := false)))
  {
    if t.pi.abort != NoAbort {
      AbortNotStrict(t);
    }
    ToldFrame(t, t.(pi := t.pi.(busy := false)));
    ToldFrame(t, t.(pi := t.pi.(busy := false, waitClose := false)));
  }

  lemma GreetedTold(s: Client)
    requires Told(s) && s.pi.state == Begin
    ensures Told(Logged(s, Served(None, s.pi.cur, 220)).(pi := s.pi.(state := Idle)))
  {
  }

  lemma WelcomeTold(s: Client, r: Reply)
    requires Live(s) && s.pi.state == Begin && s.net.ctrl == Up && s.net.inbox == []
    requires r.code == 220 && r.cause == None && !s.net.greeting && !s.pi.waitClose && Told(s)
    ensures Told(Serve(s, r))
  {
    AttributedAppend(s.past.log, None, 220);
    var u := Logged(s, Served(r.cause, s.pi.cur, r.code)).(pi := s.pi.(state := Idle));
    GreetedTold(s);
    assert Finishing(u);
    WelcomeFinishes(u, r);
  }

  lemma WelcomeFinishes(u: Client, r: Reply)
    requires Finishing(u) && Told(u) && r.code == 220 && u.pi.state == Idle && u.net.ctrl == Up
    ensures Told(React(SpecialAction(PiFinished(u), r)))
  {
    LivePiFinished(u);
    ToldFinished(u);
    WelcomeAgain(PiFinished(u), r);
  }

  lemma WelcomeAgain(v: Client, r: Reply)
    requires Live(v) && Told(v) && r.code == 220 && v.pi.state != Begin && v.net.ctrl == Up
    requires !v.ftp.timer
    ensures Told(React(SpecialAction(v, r)))
  {
    assert SpecialAction(v, r) == v;
    if v.pi.state == Idle {
      ToldStartNextCmd(v);
    }
  }

  lemma {:induction false} GreetingTold(c: Client)
    requires Greeted(c) && Told(c)
    ensures Kept(ReadLoop(c))
    decreases |c.net.inbox|
  {
    if c.net.inbox == [] {
    } else if c.net.inbox[0].code != 220 {
      var r := c.net.inbox[0];
      var s := c.(net := c.net.(inbox := c.net.inbox[1..]), pi := c.pi.(busy := true));
      var t := Logged(s, Served(r.cause, s.pi.cur, r.code));
      GreetingIgnored(c);
      GreetingLogged(c);
      assert t.(pi := t.pi.(busy := false)) == Logged(c.(net := s.net), Served(r.cause, s.pi.cur, r.code));
      GreetingTold(t.(pi := t.pi.(busy := false)));
    } else {
      WelcomeLastTold(c);
    }
  }

  lemma BeginNoAbort(c: Client)
    requires Live(c) && c.pi.state == Begin
    ensures c.pi.abort == NoAbort
  {
  }

  lemma LastKept(c: Client, s: Client, r: Reply)
    requires c.net.inbox == [r] && !c.pi.busy
    requires s == c.(net := c.net.(inbox := []), pi := c.pi.(busy := true))
    requires var (t, done) := ProcessReply(s, r); Kept(if done then t.(pi := t.pi.(busy := false)) else t)
    ensures Kept(ReadLoop(c))
  {
    ReadLast(c, s, r);
  }

  lemma WelcomeProcessed(c: Client, s: Client)
    requires Greeted(c) && Told(c) && c.net.inbox != [] && c.net.inbox[0].code == 220
    requires s == c.(net := c.net.(inbox := []), pi := c.pi.(busy := true))
    ensures Live(s) && Told(s) && s.pi.abort == NoAbort
  {
    LiveBusy(c.(net := c.net.(inbox := [])));
    BeginNoAbort(c.(net := c.net.(inbox := [])));
    ToldFrame(c, s);
  }

  lemma WelcomeLastTold(c: Client)
    requires Greeted(c) && Told(c) && c.net.inbox != [] && c.net.inbox[0].code == 220
    ensures Kept(ReadLoop(c))
  {
    var s := c.(net := c.net.(inbox := []), pi := c.pi.(busy := true));
    WelcomeProcessed(c, s);
    WelcomeKept(s, c.net.inbox[0]);
    LastKept(c, s, c.net.inbox[0]);
  }

  lemma WelcomeKept(s: Client, r: Reply)
    requires Live(s) && s.pi.state == Begin && s.net.ctrl == Up && s.net.inbox == [] && Told(s)
    requires r.code == 220 && r.cause == None && !s.net.greeting && !s.pi.waitClose
    ensures var (t, done) := ProcessReply(s, r); Kept(if done then t.(pi := t.pi.(busy := false)) else t)
  {
    BeginNoAbort(s);
    WelcomeRest(s, r);
    WelcomeTold(s, r);
    ProcessTold(s, r);
  }

  lemma TakenTold(c: Client, rs: seq<Reply>)
    requires Kept(c)
    ensures Kept(Taken(c, rs)) && (c.net.inbox == [] ==> StrictInbox(Taken(c, rs)))
  {
    var t := Taken(c, rs);
    if c.net.inbox == [] {
      assert t.net.inbox == rs;
      assert Strict(t.past) ==> !EndsEarly(c.dtp.link, rs);
    }
  }

  lemma DeliveryTold(c: Client, rs: seq<Reply>)
    requires Rest(c) && Kept(c) && Enabled(c, Delivery(rs))
    ensures Sound(Step(c, Delivery(rs)))
  {
    TakenTold(c, rs);
    if !c.pi.waitClose {
      assert c.net.inbox == [] && Taken(c, rs).net.inbox == rs;
      if c.net.greeting {
        GreetingTold(Taken(c, rs));
      } else {
        DeliveryReceived(c, rs);
        ReadLoopTold(Taken(c, rs), c.net.unanswered);
      }
    }
  }

  // -------------------------------------------------------------------------- other events

  lemma FireTold(c: Client)
    requires Rest(c) && Kept(c) && Enabled(c, Fire)
    ensures Kept(Step(c, Fire))
  {
    LiveStartNextCommand(c.(ftp := c.ftp.(timer := false)));
    ToldStart(c.(ftp := c.ftp.(timer := false)));
  }

  lemma AppendWaits(f: Ftp, r: Request)
    requires Waits(f) && Shape(r) && (f.pending == [] ==> !f.timer)
    ensures var g := Append(f, [r]);
            Waits(if |g.pending| == 1 then g.(timer := true) else g)
  {
    var g := Append(f, [r]);
    var n := Number([r], f.nextId);
    assert g.pending == f.pending + n && |n| == 1 && Scripted(n[0]);
    if Running(f) {
      assert g.pending[1..] == f.pending[1..] + n;
      ScriptedAppend(f.pending[1..], n);
    } else {
      ScriptedAppend(f.pending, n);
    }
  }

  lemma ScriptedAppend(a: seq<Cmd>, b: seq<Cmd>)
    requires ScriptedQueue(a) && ScriptedQueue(b)
    ensures ScriptedQueue(a + b)
  {
  }

  lemma UserTold(c: Client, r: Request)
    requires Rest(c) && Kept(c) && Shape(r)
    ensures Kept(Step(c, UserAdds(r)))
  {
    NoTimer(c);
    AppendWaits(c.ftp, r);
    if Strict(c.past) && PassiveRequest(r) {
      AppendPassive(c.ftp, r);
    }
    UserScript(c, r);
  }

  lemma NoTimer(c: Client)
    requires Rest(c)
    ensures c.ftp.pending == [] ==> !c.ftp.timer
  {
  }

  lemma UserScript(c: Client, r: Request)
    requires Kept(c) && (c.ftp.pending == [] ==> !c.ftp.timer)
    requires var g := Append(c.ftp, [r]); Waits(if |g.pending| == 1 then g.(timer := true) else g)
    requires Strict(c.past) && PassiveRequest(r) ==> PassiveQueue(Append(c.ftp, [r]).pending)
    ensures Kept(Step(c, UserAdds(r)))
  {
  }

  lemma AppendPassive(f: Ftp, r: Request)
    requires PassiveQueue(f.pending) && PassiveRequest(r)
    ensures PassiveQueue(Append(f, [r]).pending)
  {
    var u := Append(f, [r]).pending;
    forall i, l | 0 <= i < |u| && l in u[i].raw ensures l.verb !in {PORT, EPRT} {
      if i == |f.pending| {
        assert u[i].raw == r.raw;
      } else {
        assert u[i] == f.pending[i];
      }
    }
  }

  lemma ControlTold(c: Client, e: Event)
    requires Rest(c) && Kept(c) && Enabled(c, e)
    requires e in {HostFound, ControlOpens, ControlFails}
    ensures Kept(Step(c, e))
  {
    ConnectingKeeps(c);
    if e == ControlFails {
      ControlFailsTold(c);
    } else {
      ToldConnecting(c, Step(c, e));
    }
  }

  /** While a connection is being set up only ConnectToHost runs, and nothing is closed. */
  lemma ConnectingKeeps(c: Client)
    requires Rest(c) && c.net.ctrl == Opening
    ensures !c.pi.waitClose && !c.ftp.closeWait && HeadIs(c, ConnectToHost) && Running(c.ftp)
    ensures c.pi.state != Waiting
  {
  }

  lemma ControlFailsTold(c: Client)
    requires Rest(c) && Kept(c) && Enabled(c, ControlFails) && !c.pi.waitClose && !c.ftp.closeWait
    ensures Kept(Step(c, ControlFails))
  {
    var s := PiConnectState(c.(net := c.net.(ctrl := Down)), Unconnected);
    LivePiError(s);
    ToldError(s);
  }

  lemma ToldConnecting(c: Client, d: Client)
    requires Kept(c) && d.ftp == c.ftp.(state := d.ftp.state) && HeadIs(c, ConnectToHost) && Running(c.ftp)
    requires d.pi == c.pi.(state := d.pi.state) && c.pi.state != Waiting && d.pi.state != Waiting
    requires d.dtp == c.dtp && d.now == c.now && d.past == c.past && !c.pi.waitClose
    ensures Kept(d)
  {
  }

  lemma ControlClosesTold(c: Client)
    requires Rest(c) && Kept(c)
    ensures Kept(ControlDown(Lost(c)))
  {
    if !c.pi.waitClose && c.ftp.closeWait {
      CloseFinishes(c);
    } else {
      RestCloseWait(c);
      ToldUnconnected(c, ControlDown(Lost(c)));
    }
  }

  lemma RestCloseWait(c: Client)
    requires Rest(c)
    ensures c.pi.waitClose ==> !c.ftp.closeWait
  {
  }

  /** The waiting Close is finished. */
  lemma CloseFinishes(c: Client)
    requires Rest(c) && Kept(c) && !c.pi.waitClose && c.ftp.closeWait
    ensures Kept(ControlDown(Lost(c)))
  {
    assert Outstanding(Lost(c)) == Outstanding(c);
    var s := Lost(c).(net := Lost(c).net.(ctrl := Down),
                      ftp := c.ftp.(state := Unconnected, closeWait := false));
    LivePiFinished(s);
    ToldFinished(s);
  }

  lemma ToldUnconnected(c: Client, d: Client)
    requires Kept(c) && d.ftp == c.ftp.(state := Unconnected)
    requires d.pi == c.pi && d.dtp == c.dtp && d.now == c.now && d.past == c.past
    ensures Kept(d)
  {
  }

  /** The data connection is up: the line that moves the data goes out. */
  lemma LooseOpens(c: Client)
    requires Rest(c) && Kept(c) && Enabled(c, DataOpens) && !Strict(c.past)
    ensures Kept(DataUp(c))
  {
    var s := c.(dtp := c.dtp.(link := Up), pi := c.pi.(waitConn := false),
                now := c.now.(dataUp := true));
    if s.pi.queue == [] {
      LiveOpened(c);
      LivePiFinished(s.(pi := s.pi.(cur := None)));
      ToldFinished(s.(pi := s.pi.(cur := None)));
    } else {
      LiveOpened(c);
      LiveSendFirst(s);
      ToldSendFirst(s);
    }
  }

  lemma LiveOpened(c: Client)
    requires Rest(c) && Enabled(c, DataOpens)
    ensures Live(c.(dtp := c.dtp.(link := Up), pi := c.pi.(waitConn := false),
                    now := c.now.(dataUp := true)))
  {
  }

  /** The line that waited for the connection, and what it does to the script. */
  lemma OpeningScript(c: Client)
    requires Rest(c) && Kept(c) && c.dtp.link == Opening && Strict(c.past)
    ensures var l := if c.pi.queue == [] then Line(OTHER, "") else c.pi.queue[0];
            c.pi.queue != [] && OnData(l.verb) && (HeadIs(c, Get) ==> l.verb == RETR) &&
            Script(c.ftp.pending[0], c.pi.(cur := Some(l), queue := c.pi.queue[1..], state := Waiting),
                   c.now.(lines := c.now.lines + [Exchange(l, 0)]))
  {
    OpeningFacts(c);
    OpeningLine(c);
    NextLine(c.ftp.pending[0], c.pi, c.now);
    ScriptSend(c.ftp.pending[0], c.pi, c.now, c.pi.queue[0]);
  }

  lemma OpeningSends(c: Client)
    requires Rest(c) && Kept(c) && c.dtp.link == Opening && Strict(c.past)
    ensures c.pi.queue != [] &&
            DataUp(c) == Send(c.(dtp := c.dtp.(link := Up), pi := c.pi.(waitConn := false),
                                 now := c.now.(dataUp := true)), c.pi.queue[0])
  {
    OpeningFacts(c);
    OpeningLine(c);
  }

  lemma StrictOpens(c: Client)
    requires Rest(c) && Kept(c) && Enabled(c, DataOpens) && Strict(c.past)
    ensures Kept(DataUp(c))
  {
    OpeningFacts(c);
    OpeningScript(c);
    OpeningSends(c);
    SentTold(c, c.pi.queue[0]);
  }

  lemma OpeningFacts(c: Client)
    requires Rest(c) && Kept(c) && c.dtp.link == Opening && Strict(c.past)
    ensures var cmd := c.ftp.pending[0];
            Running(c.ftp) && TransferKind(cmd.kind) && Plain(cmd.raw) && !c.now.aborted &&
            Script(cmd, c.pi, c.now) && c.pi.state == Idle && c.now.lines != [] &&
            Last(c.now.lines).line.verb in {PASV, EPSV} && !c.pi.waitClose
  {
    PassivePlain(c);
  }

  lemma SentTold(c: Client, l: Line)
    requires Kept(c) && c.dtp.link == Opening && Strict(c.past) && !c.pi.waitClose
    requires Running(c.ftp) && c.pi.queue != [] && l == c.pi.queue[0]
    requires OnData(l.verb) && (HeadIs(c, Get) ==> l.verb == RETR)
    requires Script(c.ftp.pending[0], c.pi.(cur := Some(l), queue := c.pi.queue[1..], state := Waiting),
                    c.now.(lines := c.now.lines + [Exchange(l, 0)]))
    ensures var s := c.(dtp := c.dtp.(link := Up), pi := c.pi.(waitConn := false),
                        now := c.now.(dataUp := true));
            Kept(Send(s, l))
  {
    assert Last(c.now.lines + [Exchange(l, 0)]) == Exchange(l, 0);
  }

  /** After PASV a transfer has another line to send. */
  lemma OpeningLine(c: Client)
    requires Rest(c) && Kept(c) && c.dtp.link == Opening && Strict(c.past)
    ensures c.pi.queue != [] && c.pi.queue[0].verb !in {PORT, PASV}
  {
    var cmd, w := c.ftp.pending[0], c.now.lines;
    OpeningFacts(c);
    if c.pi.queue == [] {
      LastOfTransfer(cmd, w);
    } else {
      NextLine(cmd, c.pi, c.now);
    }
  }

  lemma DataFailsTold(c: Client)
    requires Rest(c) && Kept(c) && Enabled(c, DataFails)
    ensures Kept(DataRefused(c))
  {
    var s := c.(dtp := c.dtp.(link := Down));
    if !Forgiven(s) {
      LivePiError(s);
      ToldError(s);
    }
  }

  /** The data connection closes. */
  lemma ClosedTold(c: Client)
    requires Told(c) && c.dtp.link != Opening
    ensures Told(c.(dtp := c.dtp.(link := Down, dev := if c.dtp.link == Up then false else c.dtp.dev)))
  {
  }

  lemma DataClosesTold(c: Client)
    requires Rest(c) && Kept(c) && c.dtp.link == Up
    ensures Kept(DataDown(c))
  {
    var s := c.(dtp := c.dtp.(link := Down, dev := false));
    ClosedTold(c);
    if c.pi.waitClose {
      HeldServing(c);
      AdvancedTold(s, s.pi.held);
      LiveServe(Advanced(s), s.pi.held);
      ReleasedTold(Serve(Advanced(s), s.pi.held));
    } else {
      assert c.net.inbox == [];
    }
  }

  lemma ReleasedTold(u: Client)
    requires Live(u) && Told(u) && u.pi.waitClose
    ensures Kept(ReadyRead(u.(pi := u.pi.(busy := false, waitClose := false))))
  {
    var v := u.(pi := u.pi.(busy := false, waitClose := false));
    ToldIdleFlag(u);
    if u.net.inbox != [] {
      AbortNotStrict(u);
      var s := v.(net := v.net.(inbox := []), pi := v.pi.(busy := true));
      assert v.net.inbox == [u.net.inbox[0]];
      ToldFrame(u, s);
      ProcessTold(s, u.net.inbox[0]);
      ReadLast(v, s, u.net.inbox[0]);
    }
  }

  /** While data can come for a download, the interpreter waits for the reply to RETR. */
  lemma ReceivingData(c: Client)
    requires Rest(c) && Kept(c) && c.dtp.link == Up && Strict(c.past)
    ensures Running(c.ftp) && c.pi.abort == NoAbort
    ensures HeadIs(c, Get) ==> CurIs(c.pi, RETR) && (c.ftp.pending[0].sink ==> c.dtp.dev)
  {
    var w := c.now.lines;
    assert w != [] ==> (AllPassed(Get, w) ==> Passed(Get, Last(w)));
  }

  lemma DataComesTold(c: Client, chunk: seq<byte>)
    requires Rest(c) && Kept(c) && c.dtp.link == Up
    ensures Kept(DataArrives(c, chunk))
  {
    var s := c.(now := c.now.(wire := c.now.wire + chunk));
    if Strict(c.past) {
      ReceivingData(c);
    }
    if s.pi.cur == None {
      WiredRest(c, chunk);
      WiredTold(c, chunk);
      DataClosesTold(s);
      DataClosesRest(s);
    } else {
      StoredTold(c, chunk);
    }
  }

  lemma WiredRest(c: Client, chunk: seq<byte>)
    requires Rest(c)
    ensures Rest(c.(now := c.now.(wire := c.now.wire + chunk)))
  {
    var s := c.(now := c.now.(wire := c.now.wire + chunk));
    assert c.pi.waitClose ==> Unheld(s) == Unheld(c).(now := s.now);
  }

  lemma WiredTold(c: Client, chunk: seq<byte>)
    requires Kept(c) && (Strict(c.past) ==> !HeadIs(c, Get))
    ensures Kept(c.(now := c.now.(wire := c.now.wire + chunk)))
  {
  }

  lemma StoredTold(c: Client, chunk: seq<byte>)
    requires Kept(c) && c.pi.cur.Some?
    requires Strict(c.past) ==> Running(c.ftp) && c.pi.abort == NoAbort
    requires Strict(c.past) && HeadIs(c, Get) ==> CurIs(c.pi, RETR) && (c.ftp.pending[0].sink ==> c.dtp.dev)
    ensures Kept(DataArrives(c, chunk))
  {
  }

  lemma AbortedTold(c: Client)
    requires Kept(c) && Rest(c) && Enabled(c, AbortCalled)
    ensures var n := Noted(c, false);
            Kept(n.(ftp := n.ftp.(pending := n.ftp.pending[..1]),
                    pi := n.pi.(queue := [], abort := AbortStarted),
                    now := n.now.(aborted := true),
                    net := n.net.(unanswered := n.net.unanswered + [AborLine])))
  {
    assert c.ftp.pending[..1][1..] == [];
  }

  lemma AbortKept(c: Client)
    requires Kept(c) && Rest(c) && Enabled(c, AbortCalled)
    ensures Kept(Step(c, AbortCalled))
  {
    var n := Noted(c, false);
    NotedRest(c, false);
    AbortedTold(c);
    AbortSent(n);
    var t := n.(ftp := n.ftp.(pending := n.ftp.pending[..1]),
                pi := n.pi.(queue := [], abort := AbortStarted),
                now := n.now.(aborted := true),
                net := n.net.(unanswered := n.net.unanswered + [AborLine]));
    AbortLink(c);
    if CurIs(t.pi, STOR) && t.dtp.link == Up {
      DataClosesTold(t);
    }
  }

  lemma AbortLink(c: Client)
    requires Rest(c) && c.pi.state == Waiting
    ensures c.dtp.link != Opening && Running(c.ftp)
  {
  }

  // -------------------------------------------------------------------------------- runs

  lemma StepKept(c: Client, e: Event)
    requires Rest(c) && Kept(c) && Enabled(c, e)
    ensures Sound(Step(c, e))
  {
    match e
    case UserAdds(r) => UserTold(c, r);
    case Fire => FireTold(c);
    case HostFound => ControlTold(c, e);
    case ControlOpens => ControlTold(c, e);
    case ControlFails => ControlTold(c, e);
    case ControlCloses => ControlClosesTold(c);
    case Delivery(rs) => DeliveryTold(c, rs);
    case DataOpens =>
      if Strict(c.past) {
        StrictOpens(c);
      } else {
        LooseOpens(c);
      }
    case DataFails => DataFailsTold(c);
    case DataCloses => DataClosesTold(c);
    case DataAccepted => AcceptTold(c);
    case DataComes(chunk) => DataComesTold(c, chunk);
    case AbortCalled => AbortKept(c);
  }

  lemma StuckStep(c: Client, e: Event)
    requires Rest(c) && Stuck(c) && Enabled(c, e)
    ensures Stuck(Step(c, e))
  {
    StuckHung(c);
    HungStep(c, e);
    match e
    case UserAdds(r) => AppendWaits(c.ftp, r);
    case _ =>
  }

  lemma StuckHung(c: Client)
    requires Rest(c) && Stuck(c)
    ensures Hung(c)
  {
  }

  lemma AcceptTold(c: Client)
    requires Kept(c) && c.dtp.listening
    ensures Kept(Step(c, DataAccepted))
  {
  }

  lemma {:induction false} RunKept(c: Client, es: seq<Event>)
    requires Rest(c) && Sound(c) && Allowed(c, es)
    ensures Sound(Run(c, es))
    decreases |es|
  {
    if es == [] {
    } else {
      StepRest(c, es[0]);
      if Kept(c) {
        StepKept(c, es[0]);
      } else {
        StuckStep(c, es[0]);
      }
      RunKept(Step(c, es[0]), es[1..]);
    }
  }

  /** For every command that finished: the lines written and the lines left unsent make up its
      script, where EPSV or EPRT stands for PASV or PORT if it was accepted, and before it if it was
      refused, and PASS is dropped after a 230; all are written when it succeeded; and only the
      last line written can have been refused, unless it was SIZE in a download, ALLO in an upload,
      EPSV or EPRT. Close succeeds only when the connection is down. */
  lemma LinesRefineScripts(ip6: bool, local: string, plan: seq<seq<Request>>, es: seq<Event>)
    requires Allowed(Init(ip6, local, plan), es) && ShapedPlan(plan)
    ensures var t := Run(Init(ip6, local, plan), es).past.trace;
            forall i :: 0 <= i < |t| && t[i].Finished? ==>
              GoodAccount(t[i].cmd, t[i].failed, t[i].account)
  {
    InitRest(ip6, local, plan);
    RunKept(Init(ip6, local, plan), es);
  }

  predicate RetrWritten(c: Client) {
    c.ftp.pending != [] && !c.ftp.timer && c.ftp.pending[0].kind == Get &&
    c.now.lines != [] && Last(c.now.lines).line.verb == RETR
  }

  /** Every download reported as finished had its data connection up and closed again, and its
      device holds the bytes the server sent, in order; RETR is written only when the data
      connection is up. */
  ghost predicate Complete(c: Client) {
    && (forall i :: 0 <= i < |c.past.trace| && c.past.trace[i].Finished? ==>
          Delivered(c.past.trace[i].cmd, c.past.trace[i].failed, c.past.trace[i].account))
    && (RetrWritten(c) ==> c.now.dataUp)
  }

  lemma KeptDelivers(c: Client)
    requires Kept(c) && Strict(c.past)
    ensures Complete(c)
  {
    assert RetrWritten(c) ==> DataOwned(c.ftp.pending[0], c.dtp, c.pi, c.now);
  }

  lemma InitKept(ip6: bool, local: string, plan: seq<seq<Request>>)
    requires ShapedPlan(plan)
    ensures Rest(Init(ip6, local, plan)) && Kept(Init(ip6, local, plan))
  {
    InitRest(ip6, local, plan);
  }

  lemma RunComplete(c: Client, es: seq<Event>)
    requires Rest(c) && Kept(c) && Allowed(c, es) && Strict(Run(c, es).past)
    ensures Complete(Run(c, es))
  {
    RunKept(c, es);
    KeptDelivers(Run(c, es));
  }

  /** In passive mode, without aborts, and against a server that uses the replies of section 5.4 of
      RFC 959 and does not end a LIST or STOR with 250 while a data connection is up, all
      downloads of all runs are complete. */
  lemma DownloadsComplete(ip6: bool, local: string, plan: seq<seq<Request>>, es: seq<Event>)
    requires Allowed(Init(ip6, local, plan), es) && ShapedPlan(plan)
    requires Strict(Run(Init(ip6, local, plan), es).past)
    ensures Complete(Run(Init(ip6, local, plan), es))
  {
    InitKept(ip6, local, plan);
    RunComplete(Init(ip6, local, plan), es);
  }
}
