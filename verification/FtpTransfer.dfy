/**
 What the user of a command can rely on. The raw lines written for it carry out its script, up to
 EPSV and EPRT being tried for PASV and PORT and PASS being dropped; the script stops at the first
 refusal; and a download is reported as finished only when the device holds all that the server
 sent.
 */
module FtpTransfer {
  import opened Text
  import opened FtpTypes
  import opened FtpSpec
  import opened FtpRun
  import opened FtpControl
  import opened FtpScript

  // ------------------------------------------------------------- transcripts of a command

  /** Answered, and not with a refusal that ends a command of this kind. */
  predicate Passed(kind: Kind, x: Exchange) {
    x.code != 0 &&
    (Accepted(x.code) || x.line.verb in {EPSV, EPRT} ||
     (kind == Get && x.line.verb == SIZE) || (kind == Put && x.line.verb == ALLO))
  }

  predicate RawKind(k: Kind) { k !in {ConnectToHost, SetProxy, SetTransferMode} }

  /** All lines passed, the last one perhaps not. */
  ghost predicate PassedBefore(kind: Kind, w: seq<Exchange>) {
    forall i :: 0 <= i < |w| - 1 ==> Passed(kind, w[i])
  }

  ghost predicate AllPassed(kind: Kind, w: seq<Exchange>) {
    forall i :: 0 <= i < |w| ==> Passed(kind, w[i])
  }

  /** What the account of a finished command says. */
  ghost predicate GoodAccount(cmd: Cmd, failed: bool, a: Account) {
    && PassedBefore(cmd.kind, a.lines)
    && (!failed && cmd.kind == Close ==> a.qstate == Unconnected)
    && (!failed && RawKind(cmd.kind) ==> a.unsent == [] && AllPassed(cmd.kind, a.lines))
    && (!a.aborted && Plain(cmd.raw) && RawKind(cmd.kind) && (!failed || a.lines != []) ==>
          Divides(a.lines, a.unsent, cmd.raw))
  }

  /** A finished download into a device holds what the server sent, and the data connection
      had been up and is closed. */
  ghost predicate Delivered(cmd: Cmd, failed: bool, a: Account) {
    cmd.kind == Get && !failed ==>
      a.wasUp && a.data == Down && (cmd.sink ==> a.device == a.wire)
  }

  ghost predicate GoodTrace(t: seq<Signal>, strict: bool) {
    forall i :: 0 <= i < |t| && t[i].Finished? ==>
      GoodAccount(t[i].cmd, t[i].failed, t[i].account) &&
      (strict ==> Delivered(t[i].cmd, t[i].failed, t[i].account))
  }

  /** The current command, before (`waiting`) or after its last line was answered. */
  ghost predicate Script(cmd: Cmd, pi: Pi, now: Now) {
    if RawKind(cmd.kind) then
      && PassedBefore(cmd.kind, now.lines)
      && (if pi.state == Waiting
          then now.lines != [] && Last(now.lines).code == 0 && pi.cur == Some(Last(now.lines).line)
          else AllPassed(cmd.kind, now.lines))
      && (!now.aborted && Plain(cmd.raw) ==>
            if pi.state == Waiting then Midway(now.lines, pi.queue, cmd.raw)
            else Divides(now.lines, pi.queue, cmd.raw))
      && Scripted(cmd)
    else now.lines == [] && pi.queue == [] && pi.state != Waiting
  }

  /** The shape of a script, a Login edited for a proxy included. */
  predicate Scripted(cmd: Cmd) { Shape(Request(cmd.kind, cmd.raw, cmd.sink)) }

  ghost predicate ScriptedQueue(cmds: seq<Cmd>) {
    forall i :: 0 <= i < |cmds| ==> Scripted(cmds[i])
  }

  // ----------------------------------------------------------------------- the invariant

  predicate TransferKind(k: Kind) { k in {ListDir, Get, Put} }

  predicate OnData(v: Verb) { v in {LIST, RETR, STOR, ALLO} }

  predicate PassiveQueue(cmds: seq<Cmd>) {
    forall i, l :: 0 <= i < |cmds| && l in cmds[i].raw ==> l.verb !in {PORT, EPRT}
  }

  /** The data connection belongs to the transfer that runs, between its PASV and its end. */
  ghost predicate DataOwned(cmd: Cmd, dtp: Dtp, pi: Pi, now: Now) {
    var v := if now.lines == [] then OTHER else Last(now.lines).line.verb;
    var code := if now.lines == [] then 0 else Last(now.lines).code;
    && (dtp.link != Down ==> TransferKind(cmd.kind))
    && (dtp.link == Opening ==> v in {PASV, EPSV} && !now.dataUp)
    && (dtp.link == Up ==> now.dataUp && OnData(v) && (v != ALLO ==> !Accepted(code)))
    && (now.dataUp ==> TransferKind(cmd.kind) && OnData(v))
    && (TransferKind(cmd.kind) && v in {PASV, EPSV} && Accepted(code) ==> pi.waitConn)
    && (cmd.kind == Get ==>
          (OnData(v) ==> v == RETR && now.dataUp) &&
          (cmd.sink ==> now.device == now.wire && (dtp.dev || (now.dataUp && dtp.link == Down))))
  }

  /** The parts that do not speak of the current command. */
  ghost predicate Passive(c: Client) {
    && c.pi.abort == NoAbort && !c.dtp.listening
    && PassiveQueue(c.ftp.pending) && PassivePlan(c.ftp.plan)
    && (forall l :: l in c.pi.queue ==> l.verb !in {PORT, EPRT}) && !CurIs(c.pi, EPRT)
  }

  ghost predicate Waits(f: Ftp) {
    ScriptedQueue(if Running(f) then f.pending[1..] else f.pending) && ShapedPlan(f.plan)
  }

  /** The invariant. */
  ghost predicate Told(c: Client) {
    && Waits(c.ftp) && GoodTrace(c.past.trace, Strict(c.past))
    && (Running(c.ftp) ==> Script(c.ftp.pending[0], c.pi, c.now))
    && (Strict(c.past) ==>
          Passive(c) &&
          (if Running(c.ftp) then !c.now.aborted && DataOwned(c.ftp.pending[0], c.dtp, c.pi, c.now)
           else c.dtp.link == Down))
  }

  /** Where _q_startNextCommand is called. */
  ghost predicate ToldBetween(c: Client) {
    && ScriptedQueue(c.ftp.pending) && ShapedPlan(c.ftp.plan)
    && GoodTrace(c.past.trace, Strict(c.past))
    && (Strict(c.past) ==> Passive(c) && c.dtp.link == Down)
  }

  // -------------------------------------------------------------- the functions, one by one

  lemma TracedFinish(t: seq<Signal>, strict: bool, cmd: Cmd, failed: bool, a: Account)
    requires GoodTrace(t, strict) && GoodAccount(cmd, failed, a)
    requires strict ==> Delivered(cmd, failed, a)
    ensures GoodTrace(t + [Finished(cmd, failed, a)], strict)
  {
  }

  lemma PoppedQueue(f: Ftp)
    requires f.pending != [] && ScriptedQueue(f.pending[1..]) && ShapedPlan(f.plan)
    ensures ScriptedQueue(UserSlot(f).pending[1..]) && ShapedPlan(UserSlot(f).plan)
    ensures PassiveQueue(f.pending) && PassivePlan(f.plan) ==>
              PassiveQueue(UserSlot(f).pending[1..]) && PassivePlan(UserSlot(f).plan)
  {
    if f.plan != [] {
      assert Shapes(f.plan[0]);
      var u := UserSlot(f).pending[1..];
      assert u == f.pending[1..] + Number(f.plan[0], f.nextId);
      if PassiveQueue(f.pending) && PassivePlan(f.plan) {
        forall i, l | 0 <= i < |u| && l in u[i].raw ensures l.verb !in {PORT, EPRT} {
          if i >= |f.pending| - 1 {
            var j := i - (|f.pending| - 1);
            assert PassiveRequest(f.plan[0][j]);
          } else {
            assert u[i] == f.pending[i + 1];
          }
        }
      }
    }
  }

  lemma PoppedTold(c: Client, failed: bool, a: Account)
    requires Running(c.ftp) && Waits(c.ftp) && GoodTrace(c.past.trace, Strict(c.past))
    requires GoodAccount(c.ftp.pending[0], failed, a)
    requires Strict(c.past) ==>
               Passive(c) && c.dtp.link == Down && Delivered(c.ftp.pending[0], failed, a)
    ensures ToldBetween(Popped(c, failed, a))
  {
    PoppedQueue(c.ftp);
    TracedFinish(c.past.trace, Strict(c.past), c.ftp.pending[0], failed, a);
  }

  /** A command that has just been started. */
  ghost predicate Fresh(c: Client) {
    && Running(c.ftp) && c.now == Now([], false, [], [], false)
    && ScriptedQueue(c.ftp.pending[1..]) && ShapedPlan(c.ftp.plan)
    && GoodTrace(c.past.trace, Strict(c.past)) && Scripted(c.ftp.pending[0])
    && (Strict(c.past) ==> Passive(c) && c.dtp.link == Down)
  }

  lemma ScriptedThroughProxy(f: Ftp, cmd: Cmd)
    requires Scripted(cmd)
    ensures Scripted(ThroughProxy(f, cmd)) && ThroughProxy(f, cmd).id == cmd.id
    ensures PassiveQueue([cmd]) ==> PassiveQueue([ThroughProxy(f, cmd)])
  {
    var p := ThroughProxy(f, cmd);
    if p != cmd && PassiveQueue([cmd]) {
      forall l | l in p.raw ensures l.verb !in {PORT, EPRT} {
        assert [cmd][0] == cmd;
        assert l == p.raw[0] || l in cmd.raw[1..];
        assert cmd.raw[0] in cmd.raw;
      }
    }
  }

  lemma BegunFresh(c: Client)
    requires ToldBetween(c) && c.ftp.pending != [] && !c.ftp.timer
    ensures Fresh(Begun(c))
  {
    var cmd := c.ftp.pending[0];
    ScriptedThroughProxy(c.ftp, cmd);
    var r := Begun(c);
    assert r.ftp.pending[1..] == c.ftp.pending[1..];
    if Strict(c.past) {
      assert forall l :: l in cmd.raw ==> l.verb !in {PORT, EPRT};
      assert PassiveQueue([cmd]);
      assert [ThroughProxy(c.ftp, cmd)][0] == ThroughProxy(c.ftp, cmd);
    }
  }

  lemma PreparedFresh(c: Client)
    requires Fresh(c)
    ensures var r := Prepared(c);
            Fresh(r) && (HeadIs(r, Get) && r.ftp.pending[0].sink ==> r.dtp.dev)
  {
  }

  lemma {:induction false} ToldStart(c: Client)
    requires Between(c) && ToldBetween(c)
    ensures Told(StartNextCommand(c))
    decreases Work(c), 6
  {
    if c.ftp.pending != [] {
      BegunLive(c);
      PreparedLive(Begun(c));
      BegunFresh(c);
      PreparedFresh(Begun(c));
      ToldDispatch(Prepared(Begun(c)));
    }
  }

  lemma {:induction false} ToldDispatch(c: Client)
    requires Live(c) && Quiet(c) && Fresh(c)
    requires HeadIs(c, Get) && c.ftp.pending[0].sink ==> c.dtp.dev
    ensures Told(Dispatch(c))
    decreases Work(c), 5
  {
    match c.ftp.pending[0].kind
    case SetTransferMode =>
      FreshTold(c);
      ToldFinished(c);
    case SetProxy =>
      ProxySetLive(c);
      FreshProxy(c);
      FreshTold(ProxySet(c));
      ToldFinished(ProxySet(c));
    case ConnectToHost => ToldDial(c);
    case _ => ToldSendCommands(c);
  }

  lemma FreshTold(c: Client)
    requires Quiet(c) && Running(c.ftp) && c.now == Now([], false, [], [], false)
    requires Waits(c.ftp) && GoodTrace(c.past.trace, Strict(c.past))
    requires !RawKind(c.ftp.pending[0].kind)
    requires Strict(c.past) ==> Passive(c) && c.dtp.link == Down
    ensures Told(c)
  {
  }

  lemma FreshProxy(c: Client)
    requires Fresh(c) && HeadIs(c, SetProxy)
    ensures Waits(ProxySet(c).ftp) && (Passive(c) ==> Passive(ProxySet(c)))
  {
    assert ProxySet(c).ftp.pending[1..] == c.ftp.pending[1..];
  }

  lemma ToldDial(c: Client)
    requires Live(c) && Quiet(c) && Fresh(c) && HeadIs(c, ConnectToHost)
    ensures Told(Dial(c))
  {
  }

  lemma {:induction false} ToldNext(c: Client, failed: bool)
    requires Between(c) && ToldBetween(c)
    ensures Told(if c.ftp.pending == [] then Emit(c, Done(failed)) else StartNextCommand(c))
    decreases Work(c), 7
  {
    if c.ftp.pending != [] {
      ToldStart(c);
    }
  }

  /** A whole script was carried out: its last line has passed. */
  lemma FinishedAccount(c: Client)
    requires Finishing(c) && Told(c) && Running(c.ftp)
    requires HeadIs(c, Close) ==> c.ftp.state == Unconnected
    ensures GoodAccount(c.ftp.pending[0], false, AccountOf(c))
  {
  }

  lemma FinishedDelivered(c: Client)
    requires Finishing(c) && Told(c) && Running(c.ftp) && Strict(c.past)
    ensures c.dtp.link == Down && Delivered(c.ftp.pending[0], false, AccountOf(c))
  {
    if TransferKind(c.ftp.pending[0].kind) {
      FinishedPassed(c);
    }
  }

  lemma FinishedPassed(c: Client)
    requires Finishing(c) && Told(c) && Running(c.ftp) && Strict(c.past) && TransferKind(c.ftp.pending[0].kind)
    ensures c.now.lines != [] && OnData(Last(c.now.lines).line.verb) && Passed(c.ftp.pending[0].kind, Last(c.now.lines))
  {
    var cmd, w := c.ftp.pending[0], c.now.lines;
    PassivePlain(c);
    LastOfTransfer(cmd, w);
  }

  /** The last line of a whole transfer is the one that moves the data. */
  lemma LastOfTransfer(cmd: Cmd, w: seq<Exchange>)
    requires Scripted(cmd) && TransferKind(cmd.kind) && Divides(w, [], cmd.raw)
    ensures w != [] && Last(w).line.verb in {LIST, RETR, STOR}
    ensures cmd.kind == Get ==> Last(w).line.verb == RETR
  {
    LastLine(cmd);
    if w == [] {
      DividesNothing([], cmd.raw);
    } else {
      NoPass(cmd);
      DividesLine(w, [], cmd.raw);
      DataWritten(cmd.raw[|cmd.raw| - 1], Last(w).line);
    }
  }

  lemma LastLine(cmd: Cmd)
    requires Scripted(cmd) && TransferKind(cmd.kind)
    ensures cmd.raw != [] && cmd.raw[|cmd.raw| - 1].verb in {LIST, RETR, STOR}
    ensures cmd.kind == Get ==> cmd.raw[|cmd.raw| - 1].verb == RETR
  {
  }

  lemma DataWritten(l: Line, x: Line)
    requires l.verb in {LIST, RETR, STOR} && (Writes(l, x) || Tries(l, x))
    ensures x == l
  {
  }

  lemma NoPass(cmd: Cmd)
    requires Scripted(cmd) && TransferKind(cmd.kind)
    ensures forall l :: l in cmd.raw ==> l.verb != PASS
  {
    forall l | l in cmd.raw ensures l.verb != PASS {
      var i :| 0 <= i < |cmd.raw| && cmd.raw[i] == l;
    }
  }

  /** In passive mode only a user's raw command can choose EPSV itself. */
  lemma PassivePlain(c: Client)
    requires Passive(c) && c.ftp.pending != [] && Scripted(c.ftp.pending[0])
    requires RawKind(c.ftp.pending[0].kind) && c.ftp.pending[0].kind != RawCommand
    ensures Plain(c.ftp.pending[0].raw) && PassiveScript(c.ftp.pending[0].raw)
  {
    var raw := c.ftp.pending[0].raw;
    forall l | l in raw ensures l.verb !in {PORT, EPSV, EPRT} && (l.verb == PASV ==> l.arg == "") {
      var i :| 0 <= i < |raw| && raw[i] == l;
    }
  }

  /** Only transfers contain PASV. */
  lemma PasvOwned(cmd: Cmd, l: Line)
    requires Scripted(cmd) && RawKind(cmd.kind) && cmd.kind != RawCommand
    requires l in cmd.raw && l.verb == PASV
    ensures TransferKind(cmd.kind)
  {
    var i :| 0 <= i < |cmd.raw| && cmd.raw[i] == l;
  }

  lemma {:induction false} ToldFinished(c: Client)
    requires Finishing(c) && Told(c)
    ensures Told(PiFinished(c))
    decreases Work(c), 2
  {
    if HeadIs(c, Close) && c.ftp.state != Unconnected {
    } else if c.ftp.pending != [] {
      FinishedAccount(c);
      if Strict(c.past) {
        FinishedDelivered(c);
      }
      PoppedBetween(c, false, AccountOf(c));
      PoppedTold(c, false, AccountOf(c));
      ToldNext(Popped(c, false, AccountOf(c)), false);
    }
  }

  lemma {:induction false} ToldSendCommands(c: Client)
    requires Live(c) && Quiet(c) && Fresh(c) && RawKind(c.ftp.pending[0].kind)
    requires HeadIs(c, Get) && c.ftp.pending[0].sink ==> c.dtp.dev
    ensures Told(SendCommands(c, c.ftp.pending[0].raw))
    decreases Work(c), 4
  {
    var raw := c.ftp.pending[0].raw;
    if c.net.ctrl != Up || c.pi.state != Idle {
      ToldError(c);
    } else {
      var s := c.(pi := c.pi.(queue := raw));
      assert raw[0..] == raw && raw[..0] == [];
      ToldStartNextCmd(s);
    }
  }

  /** What is known of the current command when an error ends it. */
  ghost predicate Ending(c: Client) {
    && Running(c.ftp) && Waits(c.ftp) && GoodTrace(c.past.trace, Strict(c.past))
    && PassedBefore(c.ftp.pending[0].kind, c.now.lines)
    && (RawKind(c.ftp.pending[0].kind) && !c.now.aborted && Plain(c.ftp.pending[0].raw) && c.now.lines != []
        ==> Divides(c.now.lines, c.pi.queue, c.ftp.pending[0].raw))
    && (Strict(c.past) ==> Passive(c))
  }

  lemma {:induction false} ToldError(c: Client)
    requires Base(c.(pi := c.pi.(state := Idle)))
    requires Running(c.ftp) && Books(c.ftp, c.past.trace) && !c.ftp.closeWait
    requires c.net.ctrl != Opening && !(c.net.greeting && c.net.ctrl == Up)
    requires c.dtp.link != Down ==> !c.pi.waitClose && c.net.inbox == []
    requires Ending(c) && !Forgiven(c)
    ensures Told(PiError(c))
    decreases Work(c), 2
  {
    var s := Cleared(c);
    var a := AccountOf(c).(data := s.dtp.link);
    ErrorPopped(c);
    ToldNext(Popped(s, true, a), true);
  }

  lemma ErrorPopped(c: Client)
    requires Base(c.(pi := c.pi.(state := Idle)))
    requires Running(c.ftp) && Books(c.ftp, c.past.trace) && !c.ftp.closeWait
    requires c.net.ctrl != Opening && !(c.net.greeting && c.net.ctrl == Up)
    requires c.dtp.link != Down ==> !c.pi.waitClose && c.net.inbox == []
    requires Ending(c) && !Forgiven(c)
    ensures var s := Cleared(c);
            var d := Popped(s, true, AccountOf(c).(data := s.dtp.link));
            Between(d) && ToldBetween(d) && Work(d) < Work(c)
  {
    var s := Cleared(c);
    var a := AccountOf(c).(data := s.dtp.link);
    ClearedQuiet(c);
    PoppedBetween(s, true, a);
    assert s.ftp.pending[1..] == [];
    PoppedTold(s, true, a);
  }

  lemma {:induction false} ToldStartNextCmd(c: Client)
    requires Live(c) && c.pi.state != Waiting && !c.ftp.timer && Told(c)
    requires c.pi.queue == [] ==> Settled(c)
    ensures Told(StartNextCmd(c))
    decreases Work(c), 3
  {
    if !c.pi.waitConn && c.pi.queue == [] {
      ToldFinished(c.(pi := c.pi.(cur := None)));
    } else if !c.pi.waitConn {
      ToldSendFirst(c);
    }
  }

  lemma PassedSend(kind: Kind, w: seq<Exchange>, x: Exchange)
    requires AllPassed(kind, w)
    ensures PassedBefore(kind, w + [x]) && Last(w + [x]) == x
  {
  }

  /** The next line of the script goes out. */
  lemma ScriptSend(cmd: Cmd, pi: Pi, now: Now, l: Line)
    requires RawKind(cmd.kind) && pi.state != Waiting && pi.queue != [] && Script(cmd, pi, now)
    requires Writes(pi.queue[0], l) || Tries(pi.queue[0], l)
    ensures Script(cmd, pi.(cur := Some(l), queue := pi.queue[1..], state := Waiting),
                   now.(lines := now.lines + [Exchange(l, 0)]))
  {
    PassedSend(cmd.kind, now.lines, Exchange(l, 0));
    if !now.aborted && Plain(cmd.raw) {
      DividesSend(now.lines, pi.queue, cmd.raw, Exchange(l, 0));
    }
  }

  /** When the next line is not held back for the data connection, no transfer is under way. */
  lemma NextLine(cmd: Cmd, pi: Pi, now: Now)
    requires Script(cmd, pi, now) && TransferKind(cmd.kind) && Plain(cmd.raw) && !now.aborted
    requires now.lines != [] && pi.queue != [] && PassiveScript(cmd.raw) && pi.state != Waiting
    ensures Last(now.lines).line.verb in {PASV, EPSV} ==>
              OnData(pi.queue[0].verb) && (cmd.kind == Get ==> pi.queue[0].verb == RETR)
    ensures OnData(Last(now.lines).line.verb) ==> pi.queue[0].verb == STOR && cmd.kind == Put
    ensures Last(now.lines).line.verb !in {PASV, EPSV} && !OnData(Last(now.lines).line.verb) ==>
              !OnData(pi.queue[0].verb)
  {
    var k := |cmd.raw| - |pi.queue|;
    NoPass(cmd);
    DividesLine(now.lines, pi.queue, cmd.raw);
    assert pi.queue[0] == cmd.raw[k] && cmd.raw[k - 1] in cmd.raw;
  }

  lemma FirstLine(cmd: Cmd, pi: Pi, now: Now)
    requires Script(cmd, pi, now) && RawKind(cmd.kind) && Plain(cmd.raw) && !now.aborted
    requires now.lines == [] && pi.queue != [] && pi.state != Waiting
    ensures pi.queue[0] == cmd.raw[0]
  {
    DividesNothing(pi.queue, cmd.raw);
  }

  lemma DataOwnedNext(cmd: Cmd, dtp: Dtp, pi: Pi, now: Now, l: Line)
    requires RawKind(cmd.kind) && Script(cmd, pi, now) && !now.aborted
    requires TransferKind(cmd.kind) ==> Plain(cmd.raw) && PassiveScript(cmd.raw)
    requires DataOwned(cmd, dtp, pi, now) && dtp.link != Opening
    requires pi.state != Waiting && pi.queue != [] && !pi.waitConn
    requires l == pi.queue[0] || (pi.queue[0].verb == PASV && l == Line(EPSV, ""))
    ensures DataOwned(cmd, dtp, pi.(cur := Some(l), queue := pi.queue[1..], state := Waiting),
                      now.(lines := now.lines + [Exchange(l, 0)]))
  {
    assert Last(now.lines + [Exchange(l, 0)]) == Exchange(l, 0);
    if TransferKind(cmd.kind) {
      if now.lines == [] {
        FirstLine(cmd, pi, now);
      } else {
        NextLine(cmd, pi, now);
        assert Passed(cmd.kind, Last(now.lines));
      }
    }
  }

  lemma ToldSend(c: Client, l: Line)
    requires Running(c.ftp) && RawKind(c.ftp.pending[0].kind)
    requires c.pi.state != Waiting && c.pi.queue != [] && !c.pi.waitConn
    requires Told(c)
    requires Writes(c.pi.queue[0], l) || Tries(c.pi.queue[0], l)
    ensures Told(Send(c, l))
  {
    ScriptSend(c.ftp.pending[0], c.pi, c.now, l);
    if Strict(c.past) {
      PassiveSend(c, l);
    }
    SentScript(c, l);
  }

  lemma PassiveSend(c: Client, l: Line)
    requires Running(c.ftp) && RawKind(c.ftp.pending[0].kind) && Strict(c.past)
    requires c.pi.state != Waiting && c.pi.queue != [] && !c.pi.waitConn
    requires Told(c)
    requires Writes(c.pi.queue[0], l) || Tries(c.pi.queue[0], l)
    ensures l.verb !in {PORT, EPRT}
    ensures var s := Send(c, l); DataOwned(s.ftp.pending[0], s.dtp, s.pi, s.now)
  {
    assert c.pi.queue[0] in c.pi.queue;
    if TransferKind(c.ftp.pending[0].kind) {
      PassivePlain(c);
    }
    DataOwnedNext(c.ftp.pending[0], c.dtp, c.pi, c.now, l);
  }

  lemma SentScript(c: Client, l: Line)
    requires Running(c.ftp) && c.pi.queue != [] && Told(c)
    requires Script(c.ftp.pending[0], Send(c, l).pi, Send(c, l).now)
    requires Strict(c.past) ==>
               l.verb != EPRT && DataOwned(c.ftp.pending[0], c.dtp, Send(c, l).pi, Send(c, l).now)
    ensures Told(Send(c, l))
  {
  }

  lemma ToldSendFirst(c: Client)
    requires Running(c.ftp) && RawKind(c.ftp.pending[0].kind)
    requires c.pi.state != Waiting && c.pi.queue != [] && !c.pi.waitConn
    requires Told(c)
    ensures Told(SendFirst(c))
  {
    if Edited(c).Some? {
      ToldSend(if c.pi.queue[0].verb == PORT then Listening(c) else c, Edited(c).value);
    }
  }

  // ------------------------------------------------------------------------------- replies

  /** The last line was refused. */
  ghost predicate Failing(c: Client)
    requires c.ftp.pending != []
  {
    var cmd, w := c.ftp.pending[0], c.now.lines;
    && Running(c.ftp) && w != [] && RawKind(cmd.kind) && Scripted(cmd)
    && PassedBefore(cmd.kind, w) && Last(w).code != 0 && !Accepted(Last(w).code)
    && (!c.now.aborted && Plain(cmd.raw) ==> Midway(w, c.pi.queue, cmd.raw))
    && (Strict(c.past) ==>
          Passive(c) && !c.now.aborted && DataOwned(cmd, c.dtp, c.pi, c.now) &&
          (Last(w).line.verb in {PASV, EPSV} ==> c.dtp.link == Down))
  }

  /** The final code is entered. */
  lemma AnsweredTold(c: Client, r: Reply)
    requires Serving(c, r) && Told(c) && !Holds(c, r)
    requires Strict(c.past) ==> Proper(c.dtp.link, r)
    ensures var s := Answered(c, r.code);
            s.now.lines != [] && Last(s.now.lines) == Exchange(c.pi.cur.value, r.code) &&
            PassedBefore(c.ftp.pending[0].kind, s.now.lines) &&
            (!c.now.aborted && Plain(c.ftp.pending[0].raw) ==>
               Midway(s.now.lines, c.pi.queue, c.ftp.pending[0].raw))
  {
    if !c.now.aborted && Plain(c.ftp.pending[0].raw) {
      AnsweredDivides(c, r);
    }
  }

  lemma AnsweredDivides(c: Client, r: Reply)
    requires Serving(c, r) && Told(c) && !c.now.aborted && Plain(c.ftp.pending[0].raw)
    ensures Midway(Answered(c, r.code).now.lines, c.pi.queue, c.ftp.pending[0].raw)
  {
    AnsweredMidway(c.now.lines, r.code, c.pi.queue, c.ftp.pending[0].raw);
  }

  /** What the answered line stands for in the script. */
  lemma AnsweredLine(c: Client)
    requires c.ftp.pending != [] && Script(c.ftp.pending[0], c.pi, c.now) && c.pi.state == Waiting
    requires RawKind(c.ftp.pending[0].kind) && !c.now.aborted && Plain(c.ftp.pending[0].raw)
    ensures var raw := c.ftp.pending[0].raw;
            var k := |raw| - |c.pi.queue|;
            c.pi.cur.Some? && 0 < k <= |raw| &&
            (Writes(raw[k - 1], c.pi.cur.value) || Tries(raw[k - 1], c.pi.cur.value))
  {
    MidwayLine(c.now.lines, c.pi.queue, c.ftp.pending[0].raw);
  }

  lemma AnsweredFailing(c: Client, r: Reply)
    requires Serving(c, r) && Told(c) && !Holds(c, r) && !Accepted(r.code) && r.code / 100 in {2, 4, 5}
    requires Strict(c.past) ==> Proper(c.dtp.link, r)
    ensures Failing(Answered(c, r.code))
  {
    AnsweredTold(c, r);
  }

  lemma PassedAnswered(kind: Kind, w: seq<Exchange>, code: nat)
    requires w != [] && PassedBefore(kind, w) && Accepted(code)
    ensures var v := Front(w) + [Exchange(Last(w).line, code)];
            AllPassed(kind, v) && PassedBefore(kind, v) && Last(v) == Exchange(Last(w).line, code)
  {
    var v := Front(w) + [Exchange(Last(w).line, code)];
    forall i | 0 <= i < |v| ensures Passed(kind, v[i]) {
      if i < |w| - 1 {
        assert v[i] == w[i];
      }
    }
  }

  lemma ScriptAnswered(cmd: Cmd, pi: Pi, now: Now, code: nat, st: PiState)
    requires RawKind(cmd.kind) && Script(cmd, pi, now) && pi.state == Waiting && Accepted(code)
    requires st != Waiting
    ensures var w := Front(now.lines) + [Exchange(Last(now.lines).line, code)];
            Script(cmd, pi.(state := st), now.(lines := w))
  {
    PassedAnswered(cmd.kind, now.lines, code);
    if !now.aborted && Plain(cmd.raw) {
      AnsweredMidway(now.lines, code, pi.queue, cmd.raw);
    }
  }

  lemma AcceptedScript(c: Client, r: Reply)
    requires Serving(c, r) && Told(c) && Accepted(r.code)
    ensures var s := Answered(c, r.code);
            Script(s.ftp.pending[0], s.pi, s.now) && s.now.lines != [] &&
            Last(s.now.lines) == Exchange(c.pi.cur.value, r.code) && s.ftp == c.ftp &&
            s.dtp == c.dtp && s.past == c.past && s.now == c.now.(lines := s.now.lines) &&
            s.pi == c.pi.(state := s.pi.state) && s.pi.state in {Success, Idle}
  {
    ScriptAnswered(c.ftp.pending[0], c.pi, c.now, r.code, NextState(r.code));
  }

  /** After an accepted line the data connection is closed, or about to be opened. */
  lemma AcceptedData(c: Client, r: Reply)
    requires Serving(c, r) && Told(c) && !Holds(c, r) && Accepted(r.code)
    requires Strict(c.past) && Proper(c.dtp.link, r)
    ensures var s := Answered(c, r.code);
            var v := c.pi.cur.value.verb;
            if v in {PASV, EPSV} && TransferKind(c.ftp.pending[0].kind)
            then r.code in {227, 229} && r.addrOk && c.dtp.link == Down && !c.now.dataUp
            else DataOwned(s.ftp.pending[0], s.dtp, s.pi, s.now)
  {
    AcceptedScript(c, r);
  }

  /** An address is given only to a transfer. */
  lemma AddressVerb(r: Reply)
    requires StrictReply(r) && r.cause.Some? && r.code in {227, 229}
    ensures r.cause.value.verb in {PASV, EPSV}
  {
  }

  lemma AddressOwned(c: Client, r: Reply)
    requires Serving(c, r) && Told(c) && r.code in {227, 229} && !HeadIs(c, RawCommand)
    requires Strict(c.past) && Proper(c.dtp.link, r)
    ensures c.pi.cur.value.verb in {PASV, EPSV} && TransferKind(c.ftp.pending[0].kind)
  {
    AddressVerb(r);
    AddressTransfer(c);
  }

  /** Only transfers ask for a data connection. */
  lemma AddressTransfer(c: Client)
    requires Told(c) && Running(c.ftp) && c.pi.state == Waiting && Strict(c.past) && !HeadIs(c, RawCommand)
    requires c.pi.cur.Some? && c.pi.cur.value.verb in {PASV, EPSV} && RawKind(c.ftp.pending[0].kind)
    ensures TransferKind(c.ftp.pending[0].kind)
  {
    var raw := c.ftp.pending[0].raw;
    PassivePlain(c);
    AnsweredLine(c);
    PasvOwned(c.ftp.pending[0], raw[|raw| - |c.pi.queue| - 1]);
  }

  /** The new data connection belongs to the transfer. */
  lemma ConnectedTold(c: Client, r: Reply)
    requires Serving(c, r) && Told(c) && !Holds(c, r) && r.code in {227, 229} && r.addrOk
    requires !HeadIs(c, RawCommand) && (Strict(c.past) ==> Proper(c.dtp.link, r))
    ensures Told(ConnectData(Answered(c, r.code)))
  {
    AcceptedScript(c, r);
    if Strict(c.past) {
      AddressOwned(c, r);
      AcceptedData(c, r);
    }
  }

  /** No other accepting reply opens a connection. */
  lemma UnconnectedTold(c: Client, r: Reply)
    requires Serving(c, r) && Told(c) && !Holds(c, r) && Accepted(r.code)
    requires !(r.code in {227, 229} && r.addrOk) || HeadIs(c, RawCommand)
    requires Strict(c.past) ==> Proper(c.dtp.link, r)
    ensures Told(Answered(c, r.code))
  {
    AcceptedScript(c, r);
    if Strict(c.past) {
      AcceptedData(c, r);
    }
  }

  lemma DroppedTold(c: Client, r: Reply)
    requires Serving(c, r) && Told(c) && r.code == 230
    requires Told(Answered(c, r.code))
    ensures Told(PassDropped(Answered(c, r.code)))
  {
    var s := Answered(c, r.code);
    if CurIs(s.pi, USER) && s.pi.queue != [] && s.pi.queue[0].verb == PASS {
      DroppedScript(c, r);
      ToldTail(s);
    }
  }

  lemma DroppedScript(c: Client, r: Reply)
    requires Serving(c, r) && Told(c) && r.code == 230
    requires CurIs(c.pi, USER) && c.pi.queue != [] && c.pi.queue[0].verb == PASS
    ensures var s := Answered(c, r.code);
            Script(s.ftp.pending[0], s.pi.(queue := s.pi.queue[1..]), s.now)
  {
    var s := Answered(c, r.code);
    AcceptedScript(c, r);
    DroppedTail(c.ftp.pending[0], c.pi, c.now, s.pi, s.now);
  }

  lemma DroppedTail(cmd: Cmd, pi: Pi, now: Now, after: Pi, told: Now)
    requires RawKind(cmd.kind) && Script(cmd, pi, now) && pi.state == Waiting && CurIs(pi, USER)
    requires Script(cmd, after, told) && after.state != Waiting && after.queue == pi.queue
    requires told.aborted == now.aborted && told.lines != []
    requires Last(told.lines) == Exchange(pi.cur.value, 230)
    requires pi.queue != [] && pi.queue[0].verb == PASS
    ensures Script(cmd, after.(queue := after.queue[1..]), told)
  {
    if !now.aborted && Plain(cmd.raw) {
      MidwayLine(now.lines, pi.queue, cmd.raw);
      DividesDropped(told.lines, pi.queue, cmd.raw);
    }
    ScriptTail(cmd, after, told);
  }

  lemma ScriptTail(cmd: Cmd, pi: Pi, now: Now)
    requires RawKind(cmd.kind) && Script(cmd, pi, now) && pi.state != Waiting && pi.queue != []
    requires !now.aborted && Plain(cmd.raw) ==> Divides(now.lines, pi.queue[1..], cmd.raw)
    ensures Script(cmd, pi.(queue := pi.queue[1..]), now)
  {
  }

  lemma ToldTail(s: Client)
    requires Told(s) && Running(s.ftp) && s.pi.queue != []
    requires Script(s.ftp.pending[0], s.pi.(queue := s.pi.queue[1..]), s.now)
    ensures Told(s.(pi := s.pi.(queue := s.pi.queue[1..])))
  {
  }

  lemma AcceptedTold(c: Client, r: Reply)
    requires Serving(c, r) && Told(c) && !Holds(c, r) && Accepted(r.code)
    requires Strict(c.past) ==> Proper(c.dtp.link, r)
    ensures Told(SpecialAction(Answered(c, r.code), r))
  {
    if !HeadIs(c, RawCommand) && r.code in {227, 229} && r.addrOk {
      ConnectedTold(c, r);
    } else {
      UnconnectedTold(c, r);
      if r.code == 230 && !HeadIs(c, RawCommand) {
        WelcomedTold(c, r);
      } else {
        assert SpecialAction(Answered(c, r.code), r) == Answered(c, r.code);
      }
    }
  }

  lemma WelcomedTold(c: Client, r: Reply)
    requires Serving(c, r) && Told(c) && r.code == 230 && !HeadIs(c, RawCommand)
    requires Told(Answered(c, r.code))
    ensures Told(SpecialAction(Answered(c, r.code), r))
  {
    DroppedTold(c, r);
    LoggedInTold(PassDropped(Answered(c, r.code)));
  }

  lemma LoggedInTold(c: Client)
    requires Told(c) && !c.ftp.closeWait
    ensures Told(PiConnectState(c, LoggedIn))
  {
  }

  lemma ToldIdle(c: Client)
    requires Told(c) && c.pi.state != Waiting
    ensures Told(c.(pi := c.pi.(state := Idle)))
  {
  }

  lemma AnsweredPlain(c: Client, r: Reply)
    requires Serving(c, r)
    ensures var s := Answered(c, r.code);
            Reacting(s) && s.dtp.link != Opening && !s.pi.waitConn && !s.ftp.closeWait &&
            (s.pi.state == Failure ==> r.code !in {227, 229})
  {
    AttributedAppend(c.past.log, r.cause, r.code);
  }

  lemma AcceptedReact(c: Client, r: Reply)
    requires Serving(c, r) && Told(c) && !Holds(c, r) && Accepted(r.code)
    requires Strict(c.past) ==> Proper(c.dtp.link, r)
    ensures Told(React(SpecialAction(Answered(c, r.code), r)))
  {
    var s := Answered(c, r.code);
    AcceptedTold(c, r);
    AnsweredPlain(c, r);
    ReactingSpecial(s, r);
    SpecialState(s, r);
    ReactTold(SpecialAction(s, r));
  }

  lemma SpecialState(s: Client, r: Reply)
    requires !s.ftp.closeWait
    ensures SpecialAction(s, r).pi.state == s.pi.state
  {
  }

  lemma ReactTold(c: Client)
    requires Reacting(c) && Told(c) && c.pi.state in {Success, Idle}
    ensures Told(React(c))
  {
    ToldIdle(c);
    ToldStartNextCmd(c.(pi := c.pi.(state := Idle)));
  }

  /** A refused EPSV or EPRT is followed by PASV or PORT at once. */
  lemma RetriedScript(cmd: Cmd, pi: Pi, now: Now, l: Line)
    requires RawKind(cmd.kind) && Scripted(cmd) && now.lines != []
    requires PassedBefore(cmd.kind, now.lines) && Last(now.lines).code != 0
    requires !Accepted(Last(now.lines).code)
    requires (Last(now.lines).line.verb == EPSV && l == Line(PASV, "")) ||
             (Last(now.lines).line.verb == EPRT && l.verb == PORT)
    requires !now.aborted && Plain(cmd.raw) ==> Midway(now.lines, pi.queue, cmd.raw)
    requires pi.state == Waiting && pi.cur == Some(l)
    ensures Script(cmd, pi, now.(lines := now.lines + [Exchange(l, 0)]))
  {
    PassedSend(cmd.kind, now.lines, Exchange(l, 0));
    if !now.aborted && Plain(cmd.raw) {
      DividesRetried(now.lines, pi.queue, cmd.raw, l);
    }
  }

  lemma RetriedSends(c: Client, s: Client)
    requires Running(c.ftp) && !c.pi.waitConn
    requires s == c.(pi := c.pi.(extended := false, queue := [Line(PASV, "")] + c.pi.queue, state := Idle))
    ensures StartNextCmd(s) == Send(s, Line(PASV, "")) && Send(s, Line(PASV, "")).pi.queue == c.pi.queue
  {
    assert Edited(s) == Some(Line(PASV, ""));
    assert Send(s, Line(PASV, "")).pi.queue == c.pi.queue;
  }

  lemma RetriedTold(c: Client)
    requires Reacting(c) && Waits(c.ftp) && GoodTrace(c.past.trace, Strict(c.past))
    requires Failing(c) && !c.pi.waitConn
    requires c.pi.cur == Some(Last(c.now.lines).line) && CurIs(c.pi, EPSV)
    ensures var s := c.(pi := c.pi.(extended := false, queue := [Line(PASV, "")] + c.pi.queue, state := Idle));
            Told(StartNextCmd(s))
  {
    var s := c.(pi := c.pi.(extended := false, queue := [Line(PASV, "")] + c.pi.queue, state := Idle));
    var d := Send(s, Line(PASV, ""));
    RetriedSends(c, s);
    RetriedScript(c.ftp.pending[0], d.pi, c.now, Line(PASV, ""));
    if Strict(c.past) {
      RetriedOwned(c, d.pi);
    }
    RetriedMakes(c, d);
  }

  /** A refused EPSV has not opened a data connection. */
  lemma RetriedOwned(c: Client, pi: Pi)
    requires c.ftp.pending != [] && Failing(c) && Strict(c.past) && Last(c.now.lines).line.verb == EPSV
    requires pi.waitConn == c.pi.waitConn
    ensures DataOwned(c.ftp.pending[0], c.dtp, pi,
                      c.now.(lines := c.now.lines + [Exchange(Line(PASV, ""), 0)]))
  {
    assert Last(c.now.lines + [Exchange(Line(PASV, ""), 0)]) == Exchange(Line(PASV, ""), 0);
  }

  lemma RetriedMakes(c: Client, d: Client)
    requires c.ftp.pending != [] && Failing(c) && Waits(c.ftp) && GoodTrace(c.past.trace, Strict(c.past))
    requires d.ftp == c.ftp && d.dtp == c.dtp && d.past == c.past && d.now.aborted == c.now.aborted
    requires d.pi == c.pi.(extended := false, cur := Some(Line(PASV, "")), state := Waiting)
    requires Script(c.ftp.pending[0], d.pi, d.now)
    requires Strict(c.past) ==> DataOwned(c.ftp.pending[0], c.dtp, d.pi, d.now)
    ensures Told(d)
  {
  }

  lemma RefusedPassed(kind: Kind, w: seq<Exchange>)
    requires PassedBefore(kind, w) && w != [] && Passed(kind, Last(w))
    ensures AllPassed(kind, w)
  {
  }

  /** Nothing is awaited and nothing will be: the rest of the script is never sent. */
  ghost predicate Stuck(c: Client) {
    && Running(c.ftp) && c.pi.state == Idle && c.pi.queue != [] && c.dtp.link != Opening
    && !Strict(c.past) && Waits(c.ftp) && GoodTrace(c.past.trace, false)
  }

  ghost predicate ToldOrStuck(c: Client) { Told(c) || Stuck(c) }

  function PortFirst(c: Client): Client {
    c.(pi := c.pi.(extended := false, queue := [Line(PORT, "")] + c.pi.queue, state := Idle))
  }

  /** A refused EPRT is followed by PORT, which over IPv6 is not written. */
  lemma RetriedPort(c: Client)
    requires Reacting(c) && Waits(c.ftp) && GoodTrace(c.past.trace, Strict(c.past))
    requires Failing(c) && !c.pi.waitConn && c.pi.state == Failure
    requires c.pi.cur == Some(Last(c.now.lines).line) && CurIs(c.pi, EPRT)
    ensures if c.net.ip6 then Stuck(StartNextCmd(PortFirst(c))) else Told(StartNextCmd(PortFirst(c)))
  {
    var s := PortFirst(c);
    assert StartNextCmd(s) == SendFirst(s);
    if !s.net.ip6 {
      var l := Line(PORT, s.net.local);
      var d := Send(Listening(s), l);
      assert SendFirst(s) == d && d.pi.queue == c.pi.queue;
      RetriedScript(c.ftp.pending[0], d.pi, c.now, l);
    }
  }

  /** A refused line that is not tried again. */
  lemma FailingEnding(c: Client)
    requires c.ftp.pending != [] && Failing(c) && Last(c.now.lines).line.verb !in {EPSV, EPRT}
    requires Waits(c.ftp) && GoodTrace(c.past.trace, Strict(c.past))
    ensures Ending(c)
  {
    var cmd := c.ftp.pending[0];
    if !c.now.aborted && Plain(cmd.raw) {
      DividesRefused(c.now.lines, c.pi.queue, cmd.raw);
    }
  }

  lemma ForgivenTold(c: Client)
    requires Reacting(c) && Waits(c.ftp) && GoodTrace(c.past.trace, Strict(c.past))
    requires Failing(c) && Forgiven(c) && c.pi.cur == Some(Last(c.now.lines).line)
    ensures Told(c.(pi := c.pi.(state := Idle)))
  {
    FailingEnding(c);
    RefusedPassed(c.ftp.pending[0].kind, c.now.lines);
  }

  lemma FatalTold(c: Client)
    requires Reacting(c) && c.pi.state == Failure && Ending(c) && !Forgiven(c)
    ensures var r := PiError(c);
            Told(if r.pi.state != Waiting then StartNextCmd(r.(pi := r.pi.(state := Idle))) else r)
  {
    LivePiError(c);
    ToldError(c);
    AgainTold(PiError(c));
  }

  /** The interpreter goes on after an error, whether or not a new command has started. */
  lemma AgainTold(r: Client)
    requires Live(r) && Told(r) && r.pi.state != Begin && !r.ftp.timer
    requires r.pi.queue == [] ==> Settled(r)
    ensures Told(if r.pi.state != Waiting then StartNextCmd(r.(pi := r.pi.(state := Idle))) else r)
  {
    if r.pi.state != Waiting {
      assert r.(pi := r.pi.(state := Idle)) == r;
      ToldStartNextCmd(r);
    }
  }

  lemma FailingReact(c: Client)
    requires Reacting(c) && c.pi.state == Failure && Waits(c.ftp) && !c.pi.waitConn
    requires GoodTrace(c.past.trace, Strict(c.past)) && Failing(c)
    requires c.pi.cur == Some(Last(c.now.lines).line)
    ensures ToldOrStuck(React(c))
  {
    if CurIs(c.pi, EPSV) {
      RetriedTold(c);
    } else if CurIs(c.pi, EPRT) {
      RetriedPort(c);
      assert React(c) == StartNextCmd(PortFirst(c));
    } else {
      FailingEnding(c);
      if Forgiven(c) {
        ForgivenTold(c);
        ToldStartNextCmd(c.(pi := c.pi.(state := Idle)));
      } else {
        FatalTold(c);
      }
    }
  }

  lemma RefusedReact(c: Client, r: Reply)
    requires Serving(c, r) && Told(c) && !Holds(c, r) && !Accepted(r.code)
    requires Strict(c.past) ==> Proper(c.dtp.link, r)
    ensures ToldOrStuck(React(SpecialAction(Answered(c, r.code), r)))
  {
    var s := Answered(c, r.code);
    AnsweredFailing(c, r);
    AnsweredPlain(c, r);
    AnsweredTold(c, r);
    assert SpecialAction(s, r) == s;
    FailingReact(s);
  }

  lemma ServeTold(c: Client, r: Reply)
    requires Serving(c, r) && Told(c) && !Holds(c, r)
    requires Strict(c.past) ==> Proper(c.dtp.link, r)
    ensures ToldOrStuck(Serve(c, r)) && (Accepted(r.code) ==> Told(Serve(c, r)))
  {
    var s := Logged(c, Served(r.cause, c.pi.cur, r.code));
    AttributedAppend(c.past.log, r.cause, r.code);
    assert Serving(s, r) && Told(s);
    if Accepted(r.code) {
      AcceptedReact(s, r);
    } else {
      RefusedReact(s, r);
    }
  }
}
