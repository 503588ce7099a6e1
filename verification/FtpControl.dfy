/**
 What every reachable state of the engine satisfies: replies and lines stay in lockstep, the
 signals of the commands alternate in enqueue order, and the reader never merges two replies.
 Each function of the engine is shown to keep the invariant, re-entrant calls included.
 */
module FtpControl {
  import opened Text
  import opened FtpTypes
  import opened FtpSpec
  import opened FtpRun

  // -------------------------------------------------------------------- the signal trace

  /** Started and Finished alternate with equal ids, the ids grow, all lie below `bound`, and
      `open` is the id that was started and not finished. */
  ghost predicate Orderly(t: seq<Signal>, open: Option<nat>, bound: nat)
    decreases |t|
  {
    if t == [] then open == None
    else
      var p := t[..|t| - 1];
      match t[|t| - 1]
      case Started(i) => open == Some(i) && i < bound && Orderly(p, None, i)
      case Finished(cmd, _, _) => open == None && cmd.id < bound && Orderly(p, Some(cmd.id), cmd.id + 1)
      case Done(_) => open == None && Orderly(p, None, bound)
  }

  lemma {:induction false} OrderlyWidens(t: seq<Signal>, bound: nat, wider: nat)
    requires Orderly(t, None, bound) && bound <= wider
    ensures Orderly(t, None, wider)
    decreases |t|
  {
    if t != [] && t[|t| - 1].Done? {
      OrderlyWidens(t[..|t| - 1], bound, wider);
    }
  }

  lemma OrderlyAppend(t: seq<Signal>, s: Signal)
    ensures (t + [s])[..|t + [s]| - 1] == t && (t + [s])[|t + [s]| - 1] == s
  {
  }

  ghost predicate Growing(cmds: seq<Cmd>, bound: nat) {
    (forall i, j :: 0 <= i < j < |cmds| ==> cmds[i].id < cmds[j].id) &&
    (forall i :: 0 <= i < |cmds| ==> cmds[i].id < bound)
  }

  ghost predicate Running(f: Ftp) { f.pending != [] && !f.timer }

  ghost predicate Books(f: Ftp, t: seq<Signal>) {
    && Growing(f.pending, f.nextId)
    && (if Running(f) then Orderly(t, Some(f.pending[0].id), f.pending[0].id + 1)
        else if f.pending == [] then !f.timer && Orderly(t, None, f.nextId)
        else Orderly(t, None, f.pending[0].id))
  }

  // ----------------------------------------------------------------------- the invariant

  ghost predicate Lockstep(pi: Pi, outstanding: seq<Line>) {
    var own := if pi.state == Waiting && pi.cur.Some? then [pi.cur.value] else [];
    match pi.abort
    case NoAbort => outstanding == own
    case AbortStarted => pi.state == Waiting && outstanding == own + [AborLine]
    case WaitForAbortToFinish => outstanding == [AborLine] + own
  }

  ghost predicate Attributed(log: seq<Handling>) {
    forall i :: 0 <= i < |log| ==>
      match log[i]
      case Served(cause, current, _) => cause == current
      case Swallowed(cause) => cause == Some(AborLine)
      case Dropped(_) => false
  }

  /** Nothing of the interpreter is under way. */
  ghost predicate Quiet(c: Client) {
    && c.pi.state in {Begin, Idle} && c.pi.queue == [] && c.pi.cur == None
    && !c.ftp.closeWait && c.dtp.link != Opening && Settled(c)
    && (c.pi.state == Begin ==> c.pi.abort == NoAbort)
  }

  /** The command connection is not being set up. */
  ghost predicate Settled(c: Client) {
    c.net.ctrl != Opening && !(c.net.ctrl == Up && c.pi.state == Begin)
  }

  /** At most the reply to an ABOR is left unread, and only behind a held reply. */
  ghost predicate Unread(c: Client) {
    c.net.inbox == [] ||
    (c.pi.waitClose && c.pi.abort == WaitForAbortToFinish && |c.net.inbox| == 1 &&
     c.net.inbox[0].cause == Some(AborLine) && Final(c.net.inbox[0].code))
  }

  ghost predicate Base(c: Client) {
    && !c.past.garbled && Attributed(c.past.log)
    && Lockstep(c.pi, Outstanding(c)) && Unread(c)
    && (c.pi.waitClose ==> c.dtp.link == Down)
  }

  ghost predicate Control(c: Client) {
    && c.pi.state in {Begin, Idle, Waiting}
    && (!Running(c.ftp) ==> Quiet(c))
    && (c.pi.state == Waiting ==>
          c.pi.cur.Some? && c.dtp.link != Opening && c.net.ctrl != Opening && !c.ftp.closeWait &&
          !c.pi.waitConn)
    && (c.pi.state == Begin ==>
          c.pi.queue == [] && c.pi.cur == None && c.dtp.link != Opening && c.pi.abort == NoAbort)
    && (c.pi.queue != [] ==> !c.ftp.closeWait && Settled(c))
    && (c.dtp.link == Opening ==>
          c.pi.waitConn && c.pi.state == Idle && !c.ftp.closeWait && Settled(c))
    && (!Settled(c) ==> HeadIs(c, ConnectToHost) && c.pi.queue == [] && c.pi.cur == None)
    && (c.ftp.closeWait ==>
          HeadIs(c, Close) && c.ftp.state != Unconnected && c.pi.state != Waiting && c.pi.cur == None)
    && (c.net.greeting && c.net.ctrl == Up ==> c.pi.state == Begin)
  }

  /** The invariant, while a call is under way and after it. */
  ghost predicate Live(c: Client) {
    Base(c) && Control(c) && Books(c.ftp, c.past.trace)
  }

  /** Where _q_startNextCommand is called: the head of the queue has not been started. */
  ghost predicate Between(c: Client) {
    && Base(c) && Quiet(c) && !c.ftp.timer
    && Growing(c.ftp.pending, c.ftp.nextId)
    && Orderly(c.past.trace, None, if c.ftp.pending == [] then c.ftp.nextId else c.ftp.pending[0].id)
    && (c.net.greeting && c.net.ctrl == Up ==> c.pi.state == Begin)
  }

  /** Where the interpreter may report that the current command is finished. */
  ghost predicate Finishing(c: Client) {
    && Live(c) && c.pi.state != Waiting && c.pi.queue == [] && c.pi.cur == None
    && c.dtp.link != Opening && Settled(c) && !c.ftp.timer
  }

  /** The run is as lawful as it was. */
  predicate SameRecord(p: Past, q: Past) { q.lawful == p.lawful && q.early == p.early }

  /** What no call made while a reply is processed changes. */
  ghost predicate Keeps(c: Client, r: Client) {
    && r.net.inbox == c.net.inbox && r.pi.waitClose == c.pi.waitClose && r.pi.busy == c.pi.busy
    && r.pi.abort == c.pi.abort && r.past.log == c.past.log && SameRecord(c.past, r.past)
    && (c.net.ctrl == Up ==> r.net.ctrl == Up) && r.net.greeting == c.net.greeting
    && (c.pi.state == Idle ==> r.pi.state != Begin)
    && (r.dtp.link == c.dtp.link || r.dtp.link == Down) && !r.ftp.timer
    && (c.pi.waitConn ==> r.pi.waitConn)
  }

  // ------------------------------------------------------- the queue, popping and starting

  lemma PoppedBooks(f: Ftp, t: seq<Signal>, s: Signal)
    requires Running(f) && Books(f, t)
    requires s.Finished? && s.cmd.id == f.pending[0].id
    ensures var u := UserSlot(f).pending[1..];
            Growing(u, UserSlot(f).nextId) &&
            Orderly(t + [s], None, if u == [] then UserSlot(f).nextId else u[0].id)
  {
    OrderlyAppend(t, s);
  }

  lemma PoppedBetween(c: Client, failed: bool, a: Account)
    requires Base(c) && Quiet(c) && Running(c.ftp) && Books(c.ftp, c.past.trace)
    requires c.net.greeting && c.net.ctrl == Up ==> c.pi.state == Begin
    ensures Between(Popped(c, failed, a)) && Keeps(c, Popped(c, failed, a))
    ensures Popped(c, failed, a).net == c.net && Popped(c, failed, a).dtp == c.dtp
  {
    PoppedBooks(c.ftp, c.past.trace, Finished(c.ftp.pending[0], failed, a));
  }

  lemma BegunBooks(f: Ftp, t: seq<Signal>, cmd: Cmd)
    requires f.pending != [] && !f.timer && cmd.id == f.pending[0].id
    requires Growing(f.pending, f.nextId) && Orderly(t, None, f.pending[0].id)
    ensures Books(f.(pending := [cmd] + f.pending[1..]), t + [Started(cmd.id)])
  {
    OrderlyAppend(t, Started(cmd.id));
  }

  lemma BegunLive(c: Client)
    requires Between(c) && c.ftp.pending != []
    ensures var r := Begun(c);
            Live(r) && Quiet(r) && Keeps(c, r) && Running(r.ftp)
  {
    BegunBooks(c.ftp, c.past.trace, ThroughProxy(c.ftp, c.ftp.pending[0]));
  }

  lemma PreparedLive(c: Client)
    requires Live(c) && Quiet(c) && Running(c.ftp)
    ensures Live(Prepared(c)) && Quiet(Prepared(c)) && Keeps(c, Prepared(c)) && Running(Prepared(c).ftp)
  {
  }

  lemma ProxySetLive(c: Client)
    requires Live(c) && Quiet(c) && Running(c.ftp) && HeadIs(c, SetProxy)
    ensures Finishing(ProxySet(c)) && Keeps(c, ProxySet(c))
  {
  }

  lemma {:induction false} LiveStartNextCommand(c: Client)
    requires Between(c)
    ensures Live(StartNextCommand(c)) && Keeps(c, StartNextCommand(c))
    decreases Work(c), 6
  {
    if c.ftp.pending != [] {
      BegunLive(c);
      PreparedLive(Begun(c));
      LiveDispatch(Prepared(Begun(c)));
    }
  }

  lemma {:induction false} LiveDispatch(c: Client)
    requires Live(c) && Quiet(c) && Running(c.ftp)
    ensures Live(Dispatch(c)) && Keeps(c, Dispatch(c))
    decreases Work(c), 5
  {
    match c.ftp.pending[0].kind
    case SetTransferMode => LivePiFinished(c);
    case SetProxy =>
      ProxySetLive(c);
      LivePiFinished(ProxySet(c));
    case ConnectToHost => LiveDial(c);
    case _ => LiveSendCommands(c, c.ftp.pending[0].raw);
  }

  lemma LiveDial(c: Client)
    requires Live(c) && Quiet(c) && HeadIs(c, ConnectToHost) && Running(c.ftp)
    ensures Live(Dial(c)) && Keeps(c, Dial(c))
  {
  }

  lemma CloseWaits(c: Client)
    requires Finishing(c) && HeadIs(c, Close) && c.ftp.state != Unconnected
    ensures var r := c.(ftp := c.ftp.(closeWait := true)); Live(r) && Keeps(c, r)
  {
  }

  lemma KeepsTwice(c: Client, s: Client, r: Client)
    requires Keeps(c, s) && Keeps(s, r) && s.pi.state == c.pi.state
    ensures Keeps(c, r)
  {
  }

  lemma {:induction false} LivePiFinished(c: Client)
    requires Finishing(c)
    ensures Live(PiFinished(c)) && Keeps(c, PiFinished(c))
    decreases Work(c), 2
  {
    if HeadIs(c, Close) && c.ftp.state != Unconnected {
      CloseWaits(c);
    } else if c.ftp.pending != [] {
      var s := Popped(c, false, AccountOf(c));
      PoppedBetween(c, false, AccountOf(c));
      LiveNext(s, false);
      KeepsTwice(c, s, PiFinished(c));
    }
  }

  /** What follows a popped command: done() or the next command. */
  lemma {:induction false} LiveNext(c: Client, failed: bool)
    requires Between(c)
    ensures var r := if c.ftp.pending == [] then Emit(c, Done(failed)) else StartNextCommand(c);
            Live(r) && Keeps(c, r)
    decreases Work(c), 7
  {
    if c.ftp.pending == [] {
      OrderlyAppend(c.past.trace, Done(failed));
    } else {
      LiveStartNextCommand(c);
    }
  }

  lemma {:induction false} LiveSendCommands(c: Client, raw: seq<Line>)
    requires Live(c) && Quiet(c) && Running(c.ftp)
    ensures Live(SendCommands(c, raw)) && Keeps(c, SendCommands(c, raw))
    decreases Work(c), 4
  {
    if c.net.ctrl != Up || c.pi.state != Idle {
      LivePiError(c);
    } else {
      LiveStartNextCmd(c.(pi := c.pi.(queue := raw)));
    }
  }

  lemma {:induction false} LiveStartNextCmd(c: Client)
    requires Live(c) && c.pi.state != Waiting && !c.ftp.timer
    requires c.pi.queue == [] ==> Settled(c)
    ensures Live(StartNextCmd(c)) && Keeps(c, StartNextCmd(c))
    decreases Work(c), 3
  {
    if !c.pi.waitConn && c.pi.queue == [] {
      LivePiFinished(c.(pi := c.pi.(cur := None)));
    } else if !c.pi.waitConn {
      LiveSendFirst(c);
    }
  }

  lemma LiveSend(c: Client, l: Line)
    requires Live(c) && c.pi.state != Waiting && c.pi.queue != [] && !c.pi.waitConn && !c.ftp.timer
    ensures Live(Send(c, l)) && Keeps(c, Send(c, l))
  {
    assert Outstanding(Send(c, l)) == Outstanding(c) + [l];
  }

  lemma LiveSendFirst(c: Client)
    requires Live(c) && c.pi.state != Waiting && c.pi.queue != [] && !c.pi.waitConn && !c.ftp.timer
    ensures Live(SendFirst(c)) && Keeps(c, SendFirst(c))
  {
    if Edited(c).Some? {
      LiveSend(if c.pi.queue[0].verb == PORT then Listening(c) else c, Edited(c).value);
    }
  }

  lemma ClearedQuiet(c: Client)
    requires Base(c.(pi := c.pi.(state := Idle)))
    requires Running(c.ftp) && Books(c.ftp, c.past.trace) && !c.ftp.closeWait
    requires c.net.ctrl != Opening
    requires c.dtp.link != Down ==> !c.pi.waitClose && c.net.inbox == []
    ensures var r := Cleared(c);
            Base(r) && Quiet(r) && Running(r.ftp) && Books(r.ftp, r.past.trace) &&
            r.net == c.net && r.ftp.pending[0] == c.ftp.pending[0] && r.ftp.plan == c.ftp.plan &&
            |r.ftp.pending| <= |c.ftp.pending| && Keeps(c, r) && r.pi.state == Idle
  {
  }

  /** An error ends the current command and clears both queues. */
  lemma {:induction false} LivePiError(c: Client)
    requires Base(c.(pi := c.pi.(state := Idle)))
    requires Running(c.ftp) && Books(c.ftp, c.past.trace) && !c.ftp.closeWait
    requires c.net.ctrl != Opening && !(c.net.greeting && c.net.ctrl == Up)
    requires c.dtp.link != Down ==> !c.pi.waitClose && c.net.inbox == []
    ensures !Forgiven(c) ==> Live(PiError(c)) && Keeps(c, PiError(c)) && PiError(c).pi.state != Begin
    decreases Work(c), 2
  {
    if !Forgiven(c) {
      var s := Cleared(c);
      var a := AccountOf(c).(data := s.dtp.link);
      ClearedQuiet(c);
      PoppedBetween(s, true, a);
      LiveNext(Popped(s, true, a), true);
    }
  }

  // ------------------------------------------------------------------ replies, one at a time

  /** The state in which the reaction to a final reply begins: the line is answered and not yet
      followed up. `c.pi.state` is what the reply led to. */
  ghost predicate Reacting(c: Client) {
    && Live(c.(pi := c.pi.(state := Idle)))
    && c.pi.state in {Success, Idle, Failure}
    && Running(c.ftp) && !c.ftp.closeWait && c.net.ctrl != Opening && c.pi.cur.Some?
    && (c.pi.state == Failure ==> c.net.ctrl == Up && c.dtp.link != Opening)
  }

  /** What the answering of one reply changes at most. */
  ghost predicate Serves(c: Client, r: Client) {
    && r.net.inbox == c.net.inbox && r.pi.waitClose == c.pi.waitClose && r.pi.busy == c.pi.busy
    && r.pi.abort == c.pi.abort && SameRecord(c.past, r.past)
    && r.net.greeting == c.net.greeting && (c.pi.waitClose ==> r.dtp.link == Down)
  }

  lemma ReactingConnect(c: Client)
    requires Reacting(c) && c.dtp.link != Opening && !c.pi.waitConn
    requires c.pi.state != Failure && !c.pi.waitClose
    ensures Reacting(ConnectData(c)) && Serves(c, ConnectData(c))
    ensures ConnectData(c).past.log == c.past.log
  {
  }

  lemma ReactingDropped(c: Client)
    requires Reacting(c)
    ensures Reacting(PassDropped(c)) && Serves(c, PassDropped(c))
  {
  }

  lemma ReactingLogin(c: Client)
    requires Reacting(c)
    ensures Reacting(PiConnectState(c, LoggedIn)) && Serves(c, PiConnectState(c, LoggedIn))
  {
  }

  lemma ReactingSpecial(c: Client, r: Reply)
    requires Reacting(c) && c.dtp.link != Opening && !c.pi.waitConn
    requires c.pi.state == Failure ==> r.code !in {227, 229}
    requires c.pi.waitClose ==> r.code !in {227, 229}
    ensures Reacting(SpecialAction(c, r)) && Serves(c, SpecialAction(c, r))
  {
    if SpecialAction(c, r) == ConnectData(c) && r.code in {227, 229} {
      ReactingConnect(c);
    } else if r.code == 230 && !HeadIs(c, RawCommand) {
      ReactingWelcomed(c);
      assert SpecialAction(c, r) == PiConnectState(PassDropped(c), LoggedIn);
    } else {
      assert SpecialAction(c, r) == c;
    }
  }

  lemma ReactingWelcomed(c: Client)
    requires Reacting(c)
    ensures var s := PiConnectState(PassDropped(c), LoggedIn); Reacting(s) && Serves(c, s)
  {
    ReactingDropped(c);
    ReactingLogin(PassDropped(c));
  }

  lemma {:induction false} LiveReact(c: Client)
    requires Reacting(c)
    ensures Live(React(c)) && Serves(c, React(c))
  {
    if c.pi.state == Failure {
      LiveRefused(c);
    } else {
      LiveStartNextCmd(c.(pi := c.pi.(state := Idle)));
    }
  }

  lemma LiveRefused(c: Client)
    requires Reacting(c) && c.pi.state == Failure
    ensures Live(React(c)) && Serves(c, React(c))
  {
    if CurIs(c.pi, EPSV) || CurIs(c.pi, EPRT) {
      LiveRetried(c);
    } else if Forgiven(c) {
      LiveForgiven(c);
    } else {
      LiveFatal(c);
    }
  }

  lemma LiveRetried(c: Client)
    requires Reacting(c) && c.pi.state == Failure && (CurIs(c.pi, EPSV) || CurIs(c.pi, EPRT))
    ensures Live(React(c)) && Serves(c, React(c))
  {
    if CurIs(c.pi, EPSV) {
      LiveRetry(c, Line(PASV, ""));
    } else {
      LiveRetry(c, Line(PORT, ""));
    }
  }

  lemma LiveForgiven(c: Client)
    requires Reacting(c) && c.pi.state == Failure && !CurIs(c.pi, EPSV) && !CurIs(c.pi, EPRT) && Forgiven(c)
    ensures Live(React(c)) && Serves(c, React(c))
  {
    LiveStartNextCmd(c.(pi := c.pi.(state := Idle)));
  }

  lemma LiveFatal(c: Client)
    requires Reacting(c) && c.pi.state == Failure && !Forgiven(c)
    ensures var r := PiError(c);
            var s := if r.pi.state != Waiting then StartNextCmd(r.(pi := r.pi.(state := Idle))) else r;
            Live(s) && Serves(c, s)
  {
    LivePiError(c);
    var r := PiError(c);
    if r.pi.state != Waiting {
      assert r.(pi := r.pi.(state := Idle)) == r;
      LiveStartNextCmd(r);
    }
  }

  /** A refused EPSV or EPRT: the older line goes to the front of the queue. */
  lemma LiveRetry(c: Client, l: Line)
    requires Reacting(c) && c.pi.state == Failure
    ensures var s := c.(pi := c.pi.(extended := false, queue := [l] + c.pi.queue, state := Idle));
            Live(StartNextCmd(s)) && Serves(c, StartNextCmd(s))
  {
    LiveStartNextCmd(c.(pi := c.pi.(extended := false, queue := [l] + c.pi.queue, state := Idle)));
  }

  /** A line is on the wire and `r` is the final reply to it, just taken out of the inbox. */
  ghost predicate Serving(c: Client, r: Reply) {
    && Live(c.(pi := c.pi.(state := Idle)))
    && c.pi.state == Waiting && Running(c.ftp) && !c.ftp.closeWait && !c.pi.waitConn
    && c.net.ctrl != Opening && c.dtp.link != Opening
    && c.pi.cur.Some? && r.cause == c.pi.cur && Final(r.code) && 100 <= r.code < 600
    && (c.pi.waitClose ==> r.code in {226, 250})
    && (!c.pi.waitClose ==> c.net.ctrl == Up)
  }

  lemma AttributedAppend(log: seq<Handling>, cause: Option<Line>, code: nat)
    requires Attributed(log)
    ensures Attributed(log + [Served(cause, cause, code)])
  {
  }

  lemma LiveServe(c: Client, r: Reply)
    requires Serving(c, r)
    ensures Live(Serve(c, r)) && Serves(c, Serve(c, r))
  {
    AttributedAppend(c.past.log, r.cause, r.code);
    var s := Answered(Logged(c, Served(r.cause, c.pi.cur, r.code)), r.code);
    AnsweredReacting(c, r);
    ReactingSpecial(s, r);
    LiveReact(SpecialAction(s, r));
  }

  lemma AnsweredReacting(c: Client, r: Reply)
    requires Serving(c, r) && Attributed(c.past.log + [Served(r.cause, c.pi.cur, r.code)])
    ensures var s := Answered(Logged(c, Served(r.cause, c.pi.cur, r.code)), r.code);
            Reacting(s) && Serves(c, s) && s.dtp.link != Opening && !s.pi.waitConn &&
            (s.pi.state == Failure ==> r.code !in {227, 229})
  {
  }

  /** A 1yz reply leaves everything as it is. */
  lemma PreliminaryServe(c: Client, r: Reply)
    requires c.pi.state == Waiting && r.code / 100 == 1
    ensures Serve(c, r) == Logged(c, Served(r.cause, c.pi.cur, r.code))
  {
    assert r.code !in {202, 227, 229, 230};
  }
}
