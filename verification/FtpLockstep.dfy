/**
 Every event keeps the invariant of FtpControl, so it holds after every allowed run: replies
 and lines stay in lockstep, and the signals of the commands alternate in enqueue order.
 */
module FtpLockstep {
  import opened Text
  import opened FtpTypes
  import opened FtpSpec
  import opened FtpRun
  import opened FtpControl

  /** Between two events: a reply is held for the data connection, or nothing is half done. */
  ghost predicate Rest(c: Client) {
    if c.pi.waitClose then Held(c) else Live(c) && !c.pi.busy
  }

  /** A held reply counts as one that has not come yet. */
  function Unheld(c: Client): Client
    requires c.pi.cur.Some?
  {
    c.(pi := c.pi.(waitClose := false, busy := false),
       net := c.net.(inbox := [], unanswered := [c.pi.cur.value] + Outstanding(c)))
  }

  ghost predicate Held(c: Client) {
    && c.pi.waitClose && c.pi.busy && c.dtp.link == Up && c.pi.state == Waiting
    && c.pi.cur.Some? && Live(Unheld(c))
    && c.pi.held.cause == c.pi.cur && c.pi.held.code in {226, 250}
    && c.pi.abort != WaitForAbortToFinish
    && (c.net.inbox == [] ||
        (c.pi.abort == AbortStarted && |c.net.inbox| == 1 &&
         c.net.inbox[0].cause == Some(AborLine) && Final(c.net.inbox[0].code)))
  }

  // ------------------------------------------------------------------------- one delivery

  function Ready(c: Client, owed: seq<Line>): Client {
    c.(net := c.net.(inbox := [], unanswered := owed))
  }

  ghost predicate Receiving(c: Client, owed: seq<Line>) {
    && Live(Ready(c, owed)) && !c.pi.busy && !c.pi.waitClose && c.net.ctrl == Up
    && c.pi.state != Begin
    && InOrder(owed, c.net.inbox) && c.net.unanswered == Left(owed, c.net.inbox)
    && (c.pi.abort != NoAbort ==>
          |c.net.inbox| <= 1 &&
          forall r :: r in c.net.inbox ==>
            Final(r.code) && (r.cause == Some(AborLine) && r.code in {226, 250} ==> c.dtp.link == Down))
  }

  /** The lines owed are the one awaited and, around an ABOR, the ABOR. */
  lemma OwedShape(c: Client, owed: seq<Line>)
    requires Live(Ready(c, owed)) && owed != []
    ensures c.pi.abort != WaitForAbortToFinish ==>
              c.pi.state == Waiting && c.pi.cur == Some(owed[0])
    ensures c.pi.abort == NoAbort ==> |owed| == 1
    ensures c.pi.abort == WaitForAbortToFinish ==> owed[0] == AborLine
  {
    assert Outstanding(Ready(c, owed)) == owed;
  }

  lemma {:induction false} ReadLoopRest(c: Client, owed: seq<Line>)
    requires Receiving(c, owed)
    ensures Rest(ReadLoop(c))
    decreases |c.net.inbox|
  {
    if c.net.inbox == [] {
      assert Ready(c, owed) == c;
    } else {
      var r := c.net.inbox[0];
      OwedShape(c, owed);
      if !Final(r.code) {
        ReadPreliminary(c, owed);
      } else {
        ReadFinal(c, owed);
      }
    }
  }

  lemma {:induction false} ReadPreliminary(c: Client, owed: seq<Line>)
    requires Receiving(c, owed) && c.net.inbox != [] && !Final(c.net.inbox[0].code)
    ensures Rest(ReadLoop(c))
    decreases |c.net.inbox|, 0
  {
    var r := c.net.inbox[0];
    OwedShape(c, owed);
    var s := c.(net := c.net.(inbox := c.net.inbox[1..]), pi := c.pi.(busy := true));
    PreliminaryServe(s, r);
    AttributedAppend(c.past.log, r.cause, r.code);
    var t := Logged(s, Served(r.cause, s.pi.cur, r.code));
    assert ProcessReply(s, r) == (t, true);
    var u := t.(pi := t.pi.(busy := false));
    assert Ready(u, owed) == Logged(Ready(c, owed), Served(r.cause, s.pi.cur, r.code));
    ReadLoopRest(u, owed);
  }

  /** A final reply is the last of its delivery. */
  lemma {:induction false} ReadFinal(c: Client, owed: seq<Line>)
    requires Receiving(c, owed) && c.net.inbox != [] && Final(c.net.inbox[0].code)
    ensures Rest(ReadLoop(c))
  {
    var r := c.net.inbox[0];
    OwedShape(c, owed);
    assert InOrder(owed[1..], c.net.inbox[1..]);
    assert c.net.inbox == [r];
    assert c.net.unanswered == Left(owed[1..], c.net.inbox[1..]) == owed[1..];
    var s := c.(net := c.net.(inbox := []), pi := c.pi.(busy := true));
    FinalRest(s, r, owed);
  }

  /** Processing a final reply with nothing behind it in the inbox. */
  lemma FinalRest(s: Client, r: Reply, owed: seq<Line>)
    requires s.pi.busy && !s.pi.waitClose && s.net.inbox == [] && s.net.ctrl == Up
    requires s.pi.state != Begin
    requires owed != [] && s.net.unanswered == owed[1..] && r.cause == Some(owed[0])
    requires Live(Ready(s, owed)) && Final(r.code) && 100 <= r.code < 600
    requires s.pi.abort == WaitForAbortToFinish && r.code in {226, 250} ==> s.dtp.link == Down
    ensures var (t, done) := ProcessReply(s, r);
            t.net.inbox == [] && Rest(if done then t.(pi := t.pi.(busy := false)) else t)
  {
    OwedShape(s, owed);
    assert Outstanding(Ready(s, owed)) == owed;
    if Holds(s, r) {
      HoldRest(s, r, owed);
    } else if s.pi.abort == WaitForAbortToFinish {
      SwallowRest(s, r, owed);
    } else {
      ServedRest(s, r, owed);
    }
  }

  lemma ServedRest(s: Client, r: Reply, owed: seq<Line>)
    requires s.pi.busy && !s.pi.waitClose && s.net.inbox == [] && s.net.ctrl == Up
    requires s.pi.state != Begin
    requires owed != [] && s.net.unanswered == owed[1..] && r.cause == Some(owed[0])
    requires Live(Ready(s, owed)) && Final(r.code) && 100 <= r.code < 600
    requires !Holds(s, r) && s.pi.abort != WaitForAbortToFinish
    ensures var (t, done) := ProcessReply(s, r);
            t.net.inbox == [] && Rest(if done then t.(pi := t.pi.(busy := false)) else t)
  {
    ServingFirst(s, r, owed);
    LiveServe(Advanced(s), r);
    var t := Serve(Advanced(s), r);
    assert ProcessReply(s, r) == (t, true);
    LiveBusyAs(t, false);
  }

  lemma HoldRest(s: Client, r: Reply, owed: seq<Line>)
    requires s.pi.busy && !s.pi.waitClose && s.net.inbox == []
    requires owed != [] && s.net.unanswered == owed[1..] && r.cause == Some(owed[0])
    requires Live(Ready(s, owed)) && s.pi.abort != WaitForAbortToFinish
    requires s.pi.state == Waiting && s.pi.cur == Some(owed[0]) && Holds(s, r)
    ensures Held(ProcessReply(s, r).0)
  {
    var t := ProcessReply(s, r).0;
    assert Outstanding(t) == owed[1..] && [owed[0]] + owed[1..] == owed;
    assert Unheld(t) == Idled(Ready(s, owed), r);
    IdledLive(Ready(s, owed), r);
  }

  function Idled(c: Client, r: Reply): Client { c.(pi := c.pi.(held := r, busy := false)) }

  lemma IdledLive(c: Client, r: Reply)
    requires Live(c)
    ensures Live(Idled(c, r))
  {
  }

  lemma SwallowRest(s: Client, r: Reply, owed: seq<Line>)
    requires !s.pi.waitClose && s.net.inbox == [] && s.pi.state != Begin && !Holds(s, r)
    requires owed != [] && owed[0] == AborLine && s.net.unanswered == owed[1..]
    requires r.cause == Some(AborLine)
    requires Live(Ready(s, owed)) && s.pi.abort == WaitForAbortToFinish
    ensures var t := ProcessReply(s, r).0; Live(t) && t.net == s.net && t.dtp == s.dtp
    ensures ProcessReply(s, r).1
  {
    assert Outstanding(Ready(s, owed)) == owed;
  }

  lemma ServingFirst(s: Client, r: Reply, owed: seq<Line>)
    requires !s.pi.waitClose && s.net.inbox == [] && s.net.ctrl == Up && s.pi.state != Begin
    requires owed != [] && s.net.unanswered == owed[1..] && r.cause == Some(owed[0])
    requires Live(Ready(s, owed)) && Final(r.code) && 100 <= r.code < 600
    requires s.pi.abort != WaitForAbortToFinish
    ensures Serving(Advanced(s), r)
  {
    OwedShape(s, owed);
    assert Outstanding(Ready(s, owed)) == owed;
  }

  // ---------------------------------------------------------------------------- greetings

  ghost predicate Greeted(c: Client) {
    && Live(c.(net := c.net.(inbox := []))) && c.pi.state == Begin && c.net.ctrl == Up
    && !c.pi.busy && !c.pi.waitClose && Greets(c.net.inbox)
    && (c.net.greeting ==> forall i :: 0 <= i < |c.net.inbox| ==> !Final(c.net.inbox[i].code))
  }

  /** 120 and 421 are not acted upon. */
  lemma GreetingIgnored(c: Client)
    requires Greeted(c) && c.net.inbox != [] && c.net.inbox[0].code != 220
    ensures var s := c.(net := c.net.(inbox := c.net.inbox[1..]), pi := c.pi.(busy := true));
            ProcessReply(s, c.net.inbox[0]) ==
            (Logged(s, Served(c.net.inbox[0].cause, s.pi.cur, c.net.inbox[0].code)), true)
  {
  }

  lemma GreetingLogged(c: Client)
    requires Greeted(c) && c.net.inbox != [] && c.net.inbox[0].code != 220
    ensures var s := c.(net := c.net.(inbox := c.net.inbox[1..]));
            Greeted(Logged(s, Served(c.net.inbox[0].cause, s.pi.cur, c.net.inbox[0].code)))
  {
    AttributedAppend(c.past.log, None, c.net.inbox[0].code);
  }

  /** The loop ends after its last reply. */
  lemma ReadLast(c: Client, s: Client, r: Reply)
    requires c.net.inbox == [r] && !c.pi.busy
    requires s == c.(net := c.net.(inbox := []), pi := c.pi.(busy := true))
    ensures var (t, done) := ProcessReply(s, r);
            ReadLoop(c) == if done then t.(pi := t.pi.(busy := false)) else t
  {
    var (t, done) := ProcessReply(s, r);
    assert t.net.inbox == [];
  }

  lemma RestAfterLast(c: Client, s: Client, r: Reply, t: Client)
    requires c.net.inbox == [r] && !c.pi.busy && !c.pi.waitClose
    requires s == c.(net := c.net.(inbox := []), pi := c.pi.(busy := true))
    requires ProcessReply(s, r) == (t, true) && Live(t) && Serves(s, t)
    ensures Rest(ReadLoop(c))
  {
    LiveBusy(t);
    ReadLast(c, s, r);
  }

  lemma WelcomeLast(c: Client)
    requires Greeted(c) && c.net.inbox != [] && c.net.inbox[0].code == 220
    ensures Rest(ReadLoop(c))
  {
    var s := c.(net := c.net.(inbox := []), pi := c.pi.(busy := true));
    LiveBusy(c.(net := c.net.(inbox := [])));
    WelcomeRest(s, c.net.inbox[0]);
    assert ProcessReply(s, c.net.inbox[0]) == (Serve(s, c.net.inbox[0]), true);
    RestAfterLast(c, s, c.net.inbox[0], Serve(s, c.net.inbox[0]));
  }

  lemma {:induction false} GreetingRest(c: Client)
    requires Greeted(c)
    ensures Rest(ReadLoop(c))
    decreases |c.net.inbox|
  {
    if c.net.inbox == [] {
    } else {
      var r := c.net.inbox[0];
      var s := c.(net := c.net.(inbox := c.net.inbox[1..]), pi := c.pi.(busy := true));
      var t := Logged(s, Served(r.cause, s.pi.cur, r.code));
      if r.code != 220 {
        GreetingIgnored(c);
        GreetingLogged(c);
        assert t.(pi := t.pi.(busy := false)) == Logged(c.(net := s.net), Served(r.cause, s.pi.cur, r.code));
        GreetingRest(t.(pi := t.pi.(busy := false)));
      } else {
        WelcomeLast(c);
      }
    }
  }

  /** After 220 the interpreter reports `finished`, and a second time unless a command started. */
  lemma WelcomeRest(s: Client, r: Reply)
    requires Live(s) && s.pi.state == Begin && s.net.ctrl == Up && s.net.inbox == []
    requires r.code == 220 && r.cause == None && !s.net.greeting && !s.pi.waitClose
    ensures var t := Serve(s, r); Live(t) && Serves(s, t)
  {
    var t := Logged(s, Served(r.cause, s.pi.cur, r.code));
    WelcomeLogged(s);
    WelcomeReacts(t.(pi := t.pi.(state := Idle)), r);
  }

  lemma WelcomeLogged(s: Client)
    requires Live(s) && s.pi.state == Begin && s.net.ctrl == Up && s.net.inbox == []
    requires !s.net.greeting && !s.pi.waitClose
    ensures s.pi.cur == None
    ensures var t := Logged(s, Served(None, s.pi.cur, 220)); Finishing(t.(pi := t.pi.(state := Idle)))
  {
    AttributedAppend(s.past.log, None, 220);
  }

  lemma WelcomeReacts(u: Client, r: Reply)
    requires Finishing(u) && u.pi.state == Idle && r.code == 220 && !u.pi.waitClose && u.net.ctrl == Up
    ensures var t := React(SpecialAction(PiFinished(u), r)); Live(t) && Serves(u, t)
  {
    LivePiFinished(u);
    var v := PiFinished(u);
    assert SpecialAction(v, r) == v;
    if v.pi.state == Idle {
      LiveStartNextCmd(v);
    }
  }

  lemma HeldOutstanding(c: Client)
    requires Held(c)
    ensures Outstanding(c) == if c.pi.abort == AbortStarted then [AborLine] else []
  {
    var all := [c.pi.cur.value] + Outstanding(c);
    assert all == Outstanding(Unheld(c)) && all[1..] == Outstanding(c);
    assert c.pi.abort == AbortStarted ==> all == [c.pi.cur.value] + [AborLine];
  }

  /** Behind a held reply only the reply to an ABOR can arrive, and it stays unread. */
  lemma DeliveryHeld(c: Client, rs: seq<Reply>)
    requires Held(c) && Enabled(c, Delivery(rs))
    ensures Held(Taken(c, rs))
  {
    var t := Taken(c, rs);
    assert !c.net.greeting;
    assert c.net.unanswered != [];
    assert Causes(c.net.inbox) == (if c.net.inbox == [] then [] else [AborLine]);
    HeldOutstanding(c);
    assert c.pi.abort == AbortStarted && c.net.inbox == [] && c.net.unanswered == [AborLine];
    assert Left([AborLine], rs) == Left([], rs[1..]) == [];
    assert Causes(rs) == [AborLine] + Causes(rs[1..]) == [AborLine];
    assert t.net.inbox == rs;
    assert Unheld(t) == Unheld(c).(past := t.past);
  }

  lemma DeliveryGreeting(c: Client, rs: seq<Reply>)
    requires Live(c) && !c.pi.waitClose && !c.pi.busy && Enabled(c, Delivery(rs)) && c.net.greeting
    ensures Rest(Step(c, Delivery(rs)))
  {
    var t := Taken(c, rs);
    assert t.net.inbox == rs;
    GreetingRest(t);
  }

  lemma DeliveryReceived(c: Client, rs: seq<Reply>)
    requires Live(c) && !c.pi.waitClose && !c.pi.busy && Enabled(c, Delivery(rs)) && !c.net.greeting
    ensures Receiving(Taken(c, rs), c.net.unanswered)
  {
    var t := Taken(c, rs);
    assert t.net.inbox == rs;
    assert Ready(c, c.net.unanswered) == c;
    assert Ready(t, c.net.unanswered) == c.(past := t.past);
    OwedShape(c, c.net.unanswered);
  }

  lemma DeliveryReplies(c: Client, rs: seq<Reply>)
    requires Live(c) && !c.pi.waitClose && !c.pi.busy && Enabled(c, Delivery(rs)) && !c.net.greeting
    ensures Rest(Step(c, Delivery(rs)))
  {
    var t := Taken(c, rs);
    DeliveryReceived(c, rs);
    ReadLoopRest(t, c.net.unanswered);
  }

  lemma DeliveryRest(c: Client, rs: seq<Reply>)
    requires Rest(c) && Enabled(c, Delivery(rs))
    ensures Rest(Step(c, Delivery(rs)))
  {
    if c.pi.waitClose {
      DeliveryHeld(c, rs);
    } else if c.net.greeting {
      DeliveryGreeting(c, rs);
    } else {
      DeliveryReplies(c, rs);
    }
  }

  // -------------------------------------------------------------------------- other events

  lemma FireRest(c: Client)
    requires Rest(c) && Enabled(c, Fire)
    ensures Rest(Step(c, Fire))
  {
    LiveStartNextCommand(c.(ftp := c.ftp.(timer := false)));
  }

  lemma UserRest(c: Client, r: Request)
    requires Rest(c)
    ensures Rest(AddCommand(c, r))
  {
    if c.pi.waitClose {
      UserLive(Unheld(c), r);
      assert Unheld(AddCommand(c, r)) == AddCommand(Unheld(c), r);
    } else {
      UserLive(c, r);
    }
  }

  lemma UserLive(c: Client, r: Request)
    requires Live(c)
    ensures Live(AddCommand(c, r))
  {
    if c.ftp.pending == [] {
      assert AddCommand(c, r).ftp.pending[0].id == c.ftp.nextId;
    }
  }

  lemma ControlOpensRest(c: Client)
    requires Rest(c) && Enabled(c, ControlOpens)
    ensures Rest(ControlUp(c))
  {
  }

  lemma ControlFailsRest(c: Client)
    requires Rest(c) && Enabled(c, ControlFails)
    ensures Rest(ControlRefused(c))
  {
    LivePiError(PiConnectState(c.(net := c.net.(ctrl := Down)), Unconnected));
  }

  lemma HostFoundRest(c: Client)
    requires Rest(c) && Enabled(c, HostFound)
    ensures Rest(PiConnectState(c, Connecting))
  {
  }

  lemma ControlClosesRest(c: Client)
    requires Rest(c)
    ensures Rest(ControlDown(Lost(c)))
  {
    assert Outstanding(Lost(c)) == Outstanding(c);
    var s := Lost(c).(net := Lost(c).net.(ctrl := Down), ftp := c.ftp.(state := Unconnected, closeWait := false));
    if c.pi.waitClose {
      assert Unheld(ControlDown(Lost(c))) == ControlDown(Unheld(c));
    } else if c.ftp.closeWait {
      LivePiFinished(s);
    }
  }

  lemma DataOpensRest(c: Client)
    requires Rest(c) && Enabled(c, DataOpens)
    ensures Rest(DataUp(c))
  {
    LiveStartNextCmd(c.(dtp := c.dtp.(link := Up), pi := c.pi.(waitConn := false),
                        now := c.now.(dataUp := true)));
  }

  /** waitForDtpToConnect stays set, so that the command after the refused one is not sent. */
  lemma DataFailsRest(c: Client)
    requires Rest(c) && Enabled(c, DataFails)
    ensures Rest(DataRefused(c))
  {
    var s := c.(dtp := c.dtp.(link := Down));
    if !Forgiven(s) {
      LivePiError(s);
    }
  }

  lemma DataClosesLive(c: Client)
    requires Live(c) && !c.pi.waitClose && !c.pi.busy
    ensures Live(DataDown(c)) && !DataDown(c).pi.busy && !DataDown(c).pi.waitClose
  {
    assert c.net.inbox == [];
  }

  lemma HeldServing(c: Client)
    requires Held(c)
    ensures var s := c.(dtp := c.dtp.(link := Down, dev := false));
            Serving(Advanced(s), s.pi.held)
  {
    HeldOutstanding(c);
  }

  /** The held reply is processed at last, and then the reply to an ABOR that waited behind. */
  lemma DataClosesHeld(c: Client)
    requires Held(c)
    ensures Rest(DataDown(c)) && !DataDown(c).pi.waitClose
  {
    var s := c.(dtp := c.dtp.(link := Down, dev := false));
    HeldServing(c);
    LiveServe(Advanced(s), s.pi.held);
    var u := Serve(Advanced(s), s.pi.held);
    assert ProcessReply(s, s.pi.held) == (u, true);
    ReleasedRest(u);
    assert DataDown(c) == ReadyRead(u.(pi := u.pi.(busy := false, waitClose := false)));
  }

  lemma ReleasedRest(u: Client)
    requires Live(u) && u.pi.waitClose
    ensures var r := ReadyRead(u.(pi := u.pi.(busy := false, waitClose := false)));
            Rest(r) && !r.pi.waitClose
  {
    var v := u.(pi := u.pi.(busy := false, waitClose := false));
    if u.net.inbox != [] {
      assert u.net.inbox == [u.net.inbox[0]];
      LiveBusy(u);
      UnreadSwallowed(v, u.net.inbox[0]);
    }
  }

  lemma LiveBusy(c: Client)
    requires Live(c)
    ensures Live(c.(pi := c.pi.(busy := false))) && Live(c.(pi := c.pi.(busy := true)))
  {
    LiveBusyAs(c, false);
    LiveBusyAs(c, true);
  }

  lemma LiveBusyAs(c: Client, busy: bool)
    requires Live(c)
    ensures Live(c.(pi := c.pi.(busy := busy)))
  {
  }

  lemma UnreadSwallowed(c: Client, r: Reply)
    requires c.net.inbox == [r] && r.cause == Some(AborLine) && Final(r.code) && c.dtp.link == Down
    requires c.pi.abort == WaitForAbortToFinish && !c.pi.busy && !c.pi.waitClose
    requires Live(c.(pi := c.pi.(waitClose := true)))
    ensures Rest(ReadLoop(c)) && !ReadLoop(c).pi.waitClose
  {
    var own := c.net.unanswered;
    assert Causes([r]) == [AborLine] + Causes([r][1..]);
    var s := c.(net := c.net.(inbox := []), pi := c.pi.(busy := true));
    var t := Logged(s.(pi := s.pi.(abort := NoAbort)), Swallowed(r.cause));
    assert ProcessReply(s, r) == (t, true);
    assert Outstanding(c.(pi := c.pi.(waitClose := true))) == [AborLine] + own;
    assert Outstanding(t) == ([AborLine] + own)[1..] == own;
    var u := t.(pi := t.pi.(busy := false));
    assert ReadLoop(c) == ReadLoop(u) == u;
  }

  lemma DataClosesRest(c: Client)
    requires Rest(c)
    ensures Rest(DataDown(c)) && !DataDown(c).pi.waitClose
  {
    if c.pi.waitClose {
      DataClosesHeld(c);
    } else {
      DataClosesLive(c);
    }
  }

  lemma DataAcceptedRest(c: Client)
    requires Rest(c) && Enabled(c, DataAccepted)
    ensures Rest(Step(c, DataAccepted))
  {
  }

  lemma DataComesRest(c: Client, chunk: seq<byte>)
    requires Rest(c)
    ensures Rest(DataArrives(c, chunk))
  {
    var s := c.(now := c.now.(wire := c.now.wire + chunk));
    assert c.pi.waitClose ==> Unheld(s) == Unheld(c).(now := s.now);
    if s.pi.cur == None {
      DataClosesRest(s);
    } else if c.pi.waitClose {
      var t := s.(now := s.now.(device := s.now.device + chunk));
      assert Unheld(t) == Unheld(c).(now := t.now);
    }
  }

  /** ABOR goes out behind the line that is awaited. */
  lemma AbortSent(c: Client)
    requires Rest(c) && Enabled(c, AbortCalled)
    ensures var t := c.(ftp := c.ftp.(pending := c.ftp.pending[..1]),
                        pi := c.pi.(queue := [], abort := AbortStarted),
                        now := c.now.(aborted := true),
                        net := c.net.(unanswered := c.net.unanswered + [AborLine]));
            Rest(t)
  {
    var t := c.(ftp := c.ftp.(pending := c.ftp.pending[..1]),
                pi := c.pi.(queue := [], abort := AbortStarted),
                now := c.now.(aborted := true),
                net := c.net.(unanswered := c.net.unanswered + [AborLine]));
    assert Outstanding(t) == Outstanding(c) + [AborLine];
    if c.pi.waitClose {
      HeldOutstanding(c);
      assert Outstanding(Unheld(t)) == [c.pi.cur.value] + [AborLine];
    }
  }

  lemma AbortRest(c: Client)
    requires Rest(c) && Enabled(c, AbortCalled)
    ensures Rest(Abort(c))
  {
    AbortSent(c);
    var t := c.(ftp := c.ftp.(pending := c.ftp.pending[..1]),
                pi := c.pi.(queue := [], abort := AbortStarted),
                now := c.now.(aborted := true),
                net := c.net.(unanswered := c.net.unanswered + [AborLine]));
    if CurIs(t.pi, STOR) && t.dtp.link != Down {
      DataClosesRest(t);
    }
  }

  // -------------------------------------------------------------------------------- runs

  lemma NotedRest(c: Client, ok: bool)
    requires Rest(c)
    ensures Rest(Noted(c, ok))
  {
    assert c.pi.waitClose ==> Unheld(Noted(c, ok)) == Noted(Unheld(c), ok);
  }

  lemma StepRest(c: Client, e: Event)
    requires Rest(c) && Enabled(c, e)
    ensures Rest(Step(c, e))
  {
    match e
    case UserAdds(r) =>
      NotedRest(c, PassiveRequest(r));
      UserRest(Noted(c, PassiveRequest(r)), r);
    case Fire => FireRest(c);
    case HostFound => HostFoundRest(c);
    case ControlOpens => ControlOpensRest(c);
    case ControlFails => ControlFailsRest(c);
    case ControlCloses => ControlClosesRest(c);
    case Delivery(rs) => DeliveryRest(c, rs);
    case DataOpens => DataOpensRest(c);
    case DataFails => DataFailsRest(c);
    case DataCloses => DataClosesRest(c);
    case DataAccepted => DataAcceptedRest(c);
    case DataComes(chunk) => DataComesRest(c, chunk);
    case AbortCalled =>
      NotedRest(c, false);
      AbortRest(Noted(c, false));
  }

  lemma {:induction false} RunRest(c: Client, es: seq<Event>)
    requires Rest(c) && Allowed(c, es)
    ensures Rest(Run(c, es))
    decreases |es|
  {
    if es == [] {
    } else {
      StepRest(c, es[0]);
      RunRest(Step(c, es[0]), es[1..]);
    }
  }

  lemma InitRest(ip6: bool, local: string, plan: seq<seq<Request>>)
    ensures Rest(Init(ip6, local, plan))
  {
  }

  lemma RestState(c: Client)
    requires Rest(c)
    ensures c.pi.state in {Begin, Idle, Waiting}
  {
  }

  /** Raw lines whose final reply has not been processed, a held reply included. */
  function Unsettled(c: Client): seq<Line> {
    (if c.pi.waitClose && c.pi.held.cause.Some? then [c.pi.held.cause.value] else []) + Outstanding(c)
  }

  /** The interpreter waits exactly when one line is unsettled, and every reply was used for the
      line that caused it. Around an ABOR there is one line more, and the reply that is swallowed
      is the one to the ABOR, whatever was sent after it. */
  ghost predicate InLockstep(c: Client) {
    var own := if c.pi.state == Waiting && c.pi.cur.Some? then [c.pi.cur.value] else [];
    && (c.pi.state == Waiting ==> c.pi.cur.Some?)
    && c.pi.state in {Begin, Idle, Waiting}
    && Unsettled(c) == (match c.pi.abort
                        case NoAbort => own
                        case AbortStarted => own + [AborLine]
                        case WaitForAbortToFinish => [AborLine] + own)
    && (c.pi.abort == AbortStarted ==> c.pi.state == Waiting)
    && Attributed(c.past.log) && !c.past.garbled
  }

  lemma RestInLockstep(c: Client)
    requires Rest(c)
    ensures InLockstep(c)
  {
    if c.pi.waitClose {
      assert Unsettled(c) == Outstanding(Unheld(c));
    } else {
      assert Unsettled(c) == Outstanding(c);
    }
  }

  /** Lockstep holds after every run. */
  lemma LockstepAlways(ip6: bool, local: string, plan: seq<seq<Request>>, es: seq<Event>)
    requires Allowed(Init(ip6, local, plan), es)
    ensures InLockstep(Run(Init(ip6, local, plan), es))
  {
    InitRest(ip6, local, plan);
    RunRest(Init(ip6, local, plan), es);
    RestInLockstep(Run(Init(ip6, local, plan), es));
  }

  ghost predicate Follows(a: Signal, b: Signal) {
    (a.Started? <==> b.Finished?) && (a.Started? && b.Finished? ==> a.id == b.cmd.id)
  }

  /** What Orderly says of the whole trace: each Started stands right before the Finished of the
      same id, and the ids grow. */
  ghost predicate Alternating(t: seq<Signal>) {
    && (t != [] ==> !t[0].Finished?)
    && (forall j, k :: 0 <= j < k < |t| && k == j + 1 ==> Follows(t[j], t[k]))
    && (forall j, k :: 0 <= j < k < |t| && t[j].Started? && t[k].Started? ==> t[j].id < t[k].id)
    && (forall j, k :: 0 <= j < k < |t| && t[j].Finished? && t[k].Finished? ==>
          t[j].cmd.id < t[k].cmd.id)
  }

  ghost predicate StartedBelow(t: seq<Signal>, b: nat) {
    forall k :: 0 <= k < |t| && t[k].Started? ==> t[k].id < b
  }

  ghost predicate FinishedBelow(t: seq<Signal>, b: nat) {
    forall k :: 0 <= k < |t| && t[k].Finished? ==> t[k].cmd.id < b
  }

  lemma {:induction false} OrderlyAlternates(t: seq<Signal>, open: Option<nat>, bound: nat)
    requires Orderly(t, open, bound)
    ensures Alternating(t) && StartedBelow(t, bound) && FinishedBelow(t, bound)
    ensures open.Some? ==>
              t != [] && t[|t| - 1] == Started(open.value) && FinishedBelow(t, open.value)
    ensures open.None? && t != [] ==> !t[|t| - 1].Started?
    decreases |t|
  {
    if t == [] {
    } else {
      var p := t[..|t| - 1];
      assert t == p + [t[|t| - 1]];
      match t[|t| - 1]
      case Started(i) =>
        OrderlyAlternates(p, None, i);
        AlternatingStarted(p, i);
      case Finished(cmd, failed, a) =>
        OrderlyAlternates(p, Some(cmd.id), cmd.id + 1);
        AlternatingFinished(p, cmd, failed, a);
      case Done(_) =>
        OrderlyAlternates(p, None, bound);
    }
  }

  lemma AlternatingStarted(p: seq<Signal>, i: nat)
    requires Alternating(p) && StartedBelow(p, i) && (p != [] ==> !p[|p| - 1].Started?)
    ensures Alternating(p + [Started(i)])
  {
  }

  lemma AlternatingFinished(p: seq<Signal>, cmd: Cmd, failed: bool, a: Account)
    requires Alternating(p) && FinishedBelow(p, cmd.id)
    requires p != [] && p[|p| - 1] == Started(cmd.id)
    ensures Alternating(p + [Finished(cmd, failed, a)])
  {
  }

  /** commandStarted and commandFinished come in pairs with the same id, in the order in which
      the commands were enqueued, although the interpreter reports `finished` twice after a
      greeting and once more after a fatal error; a command that runs is at the head. */
  lemma SignalsAlternate(ip6: bool, local: string, plan: seq<seq<Request>>, es: seq<Event>)
    requires Allowed(Init(ip6, local, plan), es)
    ensures var c := Run(Init(ip6, local, plan), es);
            && Alternating(c.past.trace)
            && (Running(c.ftp) <==>
                  c.past.trace != [] && c.past.trace[|c.past.trace| - 1].Started?)
            && (Running(c.ftp) ==>
                  c.past.trace[|c.past.trace| - 1] == Started(c.ftp.pending[0].id))
  {
    InitRest(ip6, local, plan);
    RunRest(Init(ip6, local, plan), es);
    var c := Run(Init(ip6, local, plan), es);
    RestBooks(c);
    BooksAlternate(c.ftp, c.past.trace);
  }

  lemma RestBooks(c: Client)
    requires Rest(c)
    ensures Books(c.ftp, c.past.trace)
  {
  }

  lemma BooksAlternate(f: Ftp, t: seq<Signal>)
    requires Books(f, t)
    ensures Alternating(t)
    ensures Running(f) ==> t != [] && t[|t| - 1] == Started(f.pending[0].id)
    ensures !Running(f) ==> t == [] || !t[|t| - 1].Started?
  {
    if Running(f) {
      OrderlyAlternates(t, Some(f.pending[0].id), f.pending[0].id + 1);
    } else {
      OrderlyAlternates(t, None, if f.pending == [] then f.nextId else f.pending[0].id);
    }
  }
}
