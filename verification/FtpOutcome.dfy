/**
 What the end of a command tells its user: which state() is reported, why it failed, and that
 nothing that was queued behind a failed command is ever started.
 */
module FtpOutcome {
  import opened Text
  import opened FtpTypes
  import opened FtpSpec
  import opened FtpRun
  import opened FtpControl
  import opened FtpLockstep
  import opened FtpScript
  import opened FtpTransfer
  import opened FtpProgress
  import D = FtpDelivery

  // -------------------------------------------------------------------- the end of a command

  /** An answer that ends a command: not 2yz or 3yz, or 202, and not to a line whose refusal is
      forgiven or that is tried again in its older form. */
  predicate Fatal(kind: Kind, x: Exchange) {
    && x.code != 0 && (x.code / 100 !in {2, 3} || x.code == 202)
    && !(kind == Get && x.line.verb == SIZE) && !(kind == Put && x.line.verb == ALLO)
    && x.line.verb !in {EPSV, EPRT}
  }

  ghost predicate Welcome(w: seq<Exchange>) { exists i :: 0 <= i < |w| && w[i].code == 230 }

  /** What the account of a finished command says of the state and of the failure. After a 227 or
      229 it was the data connection that was refused. */
  ghost predicate Ends(cmd: Cmd, failed: bool, a: Account) {
    && (!failed && cmd.kind == ConnectToHost ==> a.qstate in {Connected, HostLookup})
    && (failed && cmd.kind == ConnectToHost ==> a.qstate == Unconnected)
    && (!failed && cmd.kind == Login && Welcome(a.lines) ==> a.qstate == LoggedIn)
    && (failed && a.lines != [] ==> Fatal(cmd.kind, Last(a.lines)) || Last(a.lines).code in {227, 229})
  }

  predicate FailedEnd(s: Signal) { s.Finished? && s.failed }

  predicate Connects(s: Signal) { s.Finished? && !s.failed && s.cmd.kind == ConnectToHost }

  /** All ends so far; from signal number n on, those of connectToHost were hasty. */
  ghost predicate Traced(t: seq<Signal>, n: nat) {
    && (forall i :: 0 <= i < |t| && t[i].Finished? ==> Ends(t[i].cmd, t[i].failed, t[i].account))
    && (forall i :: n <= i < |t| && Connects(t[i]) ==> t[i].account.qstate == HostLookup)
  }

  /** After a failure only commands are started that were enqueued after it. */
  ghost predicate StartsAfter(t: seq<Signal>) {
    forall i, j :: 0 <= i < j < |t| && FailedEnd(t[i]) && t[j].Started? ==> t[j].id >= t[i].account.next
  }

  ghost predicate QueuedAfter(f: Ftp, t: seq<Signal>) {
    && (forall i :: 0 <= i < |t| && FailedEnd(t[i]) ==> t[i].account.next <= f.nextId)
    && (forall i, k :: 0 <= i < |t| && FailedEnd(t[i]) && 0 <= k < |f.pending| ==>
          f.pending[k].id >= t[i].account.next)
  }

  // ----------------------------------------------------------------------- the invariant

  /** What state() tells of the command connection. */
  predicate Fits(q: QState, ctrl: Link) {
    match q
    case Unconnected => ctrl == Down
    case HostLookup => ctrl != Down
    case Connecting => ctrl == Opening
    case Connected => ctrl == Up
    case LoggedIn => ctrl == Up
    case Closing => ctrl != Opening
  }

  /** LoggedIn only after a 230. */
  ghost predicate Earned(q: QState, log: seq<Handling>) {
    q == LoggedIn ==> Logs230(log)
  }

  ghost predicate Logs230(log: seq<Handling>) { exists i :: 0 <= i < |log| && log[i].Served? && log[i].code == 230 }

  predicate Extended(l: Line) { l.verb in {EPSV, EPRT} }

  /** EPSV or EPRT was refused. */
  predicate InVain(h: Handling) {
    h.Served? && h.current.Some? && Extended(h.current.value) && (h.code / 100 !in {2, 3} || h.code == 202)
  }

  ghost predicate TriedInVain(log: seq<Handling>) { exists i :: 0 <= i < |log| && InVain(log[i]) }

  predicate RawExtended(raw: seq<Line>) { exists l :: l in raw && Extended(l) }

  /** PASV is written over IPv6 only when an extended command has been refused, and extended ones over
      IPv4 only if the user has asked for them. */
  ghost predicate Speaks(w: seq<Exchange>, raw: seq<Line>, ip6: bool, log: seq<Handling>) {
    && (ip6 && !TriedInVain(log) ==> forall i :: 0 <= i < |w| ==> w[i].line.verb != PASV)
    && (!ip6 && !RawExtended(raw) ==> forall i :: 0 <= i < |w| ==> !Extended(w[i].line))
  }

  ghost predicate AllSpeak(t: seq<Signal>, ip6: bool, log: seq<Handling>) {
    forall i :: 0 <= i < |t| && t[i].Finished? ==> Speaks(t[i].account.lines, t[i].cmd.raw, ip6, log)
  }

  predicate LoginRaw(kind: Kind, raw: seq<Line>) {
    kind == Login ==> |raw| == 2 && raw[0].verb == USER && raw[1].verb == PASS
  }

  ghost predicate LoginsRaw(f: Ftp) {
    && (forall k :: 0 <= k < |f.pending| ==> LoginRaw(f.pending[k].kind, f.pending[k].raw))
    && (forall i, j :: 0 <= i < |f.plan| && 0 <= j < |f.plan[i]| ==>
          LoginRaw(f.plan[i][j].kind, f.plan[i][j].raw))
  }

  ghost predicate Common(c: Client, n: nat) {
    && Traced(c.past.trace, n) && StartsAfter(c.past.trace) && QueuedAfter(c.ftp, c.past.trace)
    && LoginsRaw(c.ftp) && Fits(c.ftp.state, c.net.ctrl) && Earned(c.ftp.state, c.past.log)
    && AllSpeak(c.past.trace, c.net.ip6, c.past.log) && (c.pi.extended || TriedInVain(c.past.log))
  }

  /** A login that has been welcomed has nothing more to send. */
  ghost predicate LoginOk(pi: Pi, w: seq<Exchange>, q: QState) {
    && (forall i :: 0 <= i < |w| ==> w[i].line.verb in {USER, PASS})
    && (Welcome(w) ==> q == LoggedIn && pi.queue == [])
    && (pi.queue == [] ||
        (w == [] && |pi.queue| == 2 && pi.queue[0].verb == USER && pi.queue[1].verb == PASS) ||
        (w != [] && |pi.queue| == 1 && pi.queue[0].verb == PASS && Last(w).line.verb == USER))
  }

  /** The command that runs. */
  ghost predicate HeadOk(c: Client)
    requires c.ftp.pending != []
  {
    var kind, w := c.ftp.pending[0].kind, c.now.lines;
    && (c.pi.state == Waiting || c.pi.queue != [] || c.dtp.link == Opening || w != [] ==> RawKind(kind))
    && (c.pi.state == Waiting ==> w != [] && c.pi.cur == Some(Last(w).line) && Last(w).code == 0)
    && (c.dtp.link == Opening ==> w != [] && Last(w).code in {227, 229})
    && Speaks(w, c.ftp.pending[0].raw, c.net.ip6, c.past.log)
    && (!RawExtended(c.ftp.pending[0].raw) ==> forall l :: l in c.pi.queue ==> !Extended(l))
    && (kind == Login ==> LoginOk(c.pi, w, c.ftp.state))
    && (kind == Close ==> c.ftp.state in {Closing, Unconnected} || (c.ftp.state == LoggedIn && Welcome(w)))
  }

  /** While connectToHost runs and the connection is up: Connected until the greeting has come, and
      HostLookup if the connection was up before. */
  predicate ConnectOk(c: Client) {
    HeadIs(c, ConnectToHost) && c.net.ctrl == Up ==>
      c.ftp.state == if c.pi.state == Begin then Connected else HostLookup
  }

  ghost predicate Core(c: Client, n: nat) { Common(c, n) && (Running(c.ftp) ==> HeadOk(c)) }

  ghost predicate Fated(c: Client, n: nat) { Core(c, n) && (Running(c.ftp) ==> ConnectOk(c)) }

  /** No login that runs has been welcomed: it has finished then. */
  ghost predicate Unwelcomed(c: Client) { Running(c.ftp) && HeadIs(c, Login) ==> !Welcome(c.now.lines) }

  ghost predicate Fair(c: Client, n: nat) { Fated(c, n) && Unwelcomed(c) }

  // -------------------------------------------------------------- the functions, one by one

  lemma PoppedTraced(t: seq<Signal>, n: nat, s: Signal)
    requires Traced(t, n) && StartsAfter(t) && s.Finished? && Ends(s.cmd, s.failed, s.account)
    requires |t| >= n && Connects(s) ==> s.account.qstate == HostLookup
    ensures Traced(t + [s], n) && StartsAfter(t + [s])
  {
  }

  lemma UserSlotQueued(f: Ftp, t: seq<Signal>)
    requires QueuedAfter(f, t) && LoginsRaw(f) && f.pending != []
    ensures var g := UserSlot(f).(pending := UserSlot(f).pending[1..]); QueuedAfter(g, t) && LoginsRaw(g)
  {
    if f.plan != [] {
      var u := UserSlot(f).pending;
      assert u == f.pending + Number(f.plan[0], f.nextId);
    }
  }

  lemma SpeakNext(t: seq<Signal>, s: Signal, ip6: bool, log: seq<Handling>)
    requires AllSpeak(t, ip6, log) && (s.Finished? ==> Speaks(s.account.lines, s.cmd.raw, ip6, log))
    ensures AllSpeak(t + [s], ip6, log)
  {
  }

  lemma PoppedCommon(c: Client, failed: bool, a: Account, n: nat)
    requires Common(c, n) && c.ftp.pending != [] && Ends(c.ftp.pending[0], failed, a)
    requires Speaks(a.lines, c.ftp.pending[0].raw, c.net.ip6, c.past.log)
    requires failed ==> a.next == c.ftp.nextId && |c.ftp.pending| == 1
    requires |c.past.trace| >= n && Connects(Finished(c.ftp.pending[0], failed, a)) ==> a.qstate == HostLookup
    ensures Common(Popped(c, failed, a), n)
  {
    var s := Finished(c.ftp.pending[0], failed, a);
    PoppedTraced(c.past.trace, n, s);
    UserSlotQueued(c.ftp, c.past.trace);
    PoppedQueued(c.ftp, c.past.trace, s);
    SpeakNext(c.past.trace, s, c.net.ip6, c.past.log);
  }

  lemma PoppedQueued(f: Ftp, t: seq<Signal>, s: Signal)
    requires f.pending != [] && s.Finished?
    requires s.failed ==> s.account.next == f.nextId && |f.pending| == 1
    requires var g := UserSlot(f).(pending := UserSlot(f).pending[1..]); QueuedAfter(g, t)
    ensures var g := UserSlot(f).(pending := UserSlot(f).pending[1..]); QueuedAfter(g, t + [s])
  {
    if s.failed {
      PoppedNew(f);
    }
  }

  /** Behind a failed command only what its slot enqueues is left. */
  lemma PoppedNew(f: Ftp)
    requires |f.pending| == 1
    ensures var u := UserSlot(f);
            u.nextId >= f.nextId && forall k :: 0 < k < |u.pending| ==> u.pending[k].id >= f.nextId
  {
  }

  lemma StartedTraced(t: seq<Signal>, n: nat, id: nat)
    requires Traced(t, n) && StartsAfter(t) && forall i :: 0 <= i < |t| && FailedEnd(t[i]) ==> id >= t[i].account.next
    ensures Traced(t + [Started(id)], n) && StartsAfter(t + [Started(id)])
  {
  }

  lemma BegunQueued(f: Ftp, t: seq<Signal>, cmd: Cmd, n: nat)
    requires Traced(t, n) && StartsAfter(t) && QueuedAfter(f, t) && LoginsRaw(f) && f.pending != []
    requires cmd.id == f.pending[0].id && LoginRaw(cmd.kind, cmd.raw)
    ensures var g, u := f.(pending := [cmd] + f.pending[1..]), t + [Started(cmd.id)];
            Traced(u, n) && StartsAfter(u) && QueuedAfter(g, u) && LoginsRaw(g)
  {
    StartedTraced(t, n, cmd.id);
    var g := f.(pending := [cmd] + f.pending[1..]);
    assert forall k :: 0 < k < |g.pending| ==> g.pending[k] == f.pending[k];
  }

  lemma BegunCommon(c: Client, n: nat)
    requires Common(c, n) && c.ftp.pending != []
    ensures Common(Begun(c), n)
  {
    BegunQueued(c.ftp, c.past.trace, ThroughProxy(c.ftp, c.ftp.pending[0]), n);
    SpeakNext(c.past.trace, Started(c.ftp.pending[0].id), c.net.ip6, c.past.log);
  }

  /** A command that has just been started: nothing is queued or written for it. */
  ghost predicate JustStarted(c: Client, n: nat) {
    && Running(c.ftp) && Quiet(c) && Common(c, n) && c.now == Now([], false, [], [], false)
  }

  lemma PreparedCommon(c: Client, n: nat)
    requires JustStarted(c, n)
    ensures JustStarted(Prepared(c), n) && HeadOk(Prepared(c))
  {
  }

  lemma {:induction false} FairStart(c: Client, n: nat)
    requires Between(c) && Common(c, n)
    ensures Fair(StartNextCommand(c), n)
    decreases Work(c), 6
  {
    if c.ftp.pending != [] {
      BegunLive(c);
      PreparedLive(Begun(c));
      BegunCommon(c, n);
      PreparedCommon(Begun(c), n);
      FairDispatch(Prepared(Begun(c)), n);
    }
  }

  lemma {:induction false} FairDispatch(c: Client, n: nat)
    requires Live(c) && JustStarted(c, n) && HeadOk(c)
    ensures Fair(Dispatch(c), n)
    decreases Work(c), 5
  {
    match c.ftp.pending[0].kind
    case SetTransferMode => FairFinished(c, n);
    case SetProxy =>
      ProxySetLive(c);
      ProxySetCore(c, n);
      FairFinished(ProxySet(c), n);
    case ConnectToHost => FairDial(c, n);
    case _ => FairSendCommands(c, n);
  }

  lemma ProxySetCore(c: Client, n: nat)
    requires JustStarted(c, n) && HeadIs(c, SetProxy)
    ensures Core(ProxySet(c), n)
  {
    var g := ProxySet(c).ftp;
    assert forall k :: 0 < k < |g.pending| ==> g.pending[k] == c.ftp.pending[k];
    assert g.pending[0].id == c.ftp.pending[0].id;
  }

  lemma FairDial(c: Client, n: nat)
    requires Live(c) && JustStarted(c, n) && HeadIs(c, ConnectToHost)
    ensures Fair(Dial(c), n)
  {
  }

  /** What the head of the queue must be like when `finished` is reported for it. */
  predicate ConnectEndsAs(c: Client, n: nat) {
    HeadIs(c, ConnectToHost) ==>
      c.ftp.state == HostLookup || (c.ftp.state == Connected && |c.past.trace| < n)
  }

  lemma {:induction false} FairFinished(c: Client, n: nat)
    requires Finishing(c) && Core(c, n) && ConnectEndsAs(c, n)
    ensures Fair(PiFinished(c), n)
    decreases Work(c), 2
  {
    if c.ftp.pending != [] && !(HeadIs(c, Close) && c.ftp.state != Unconnected) {
      PoppedBetween(c, false, AccountOf(c));
      PoppedCommon(c, false, AccountOf(c), n);
      FairNext(Popped(c, false, AccountOf(c)), false, n);
    }
  }

  lemma {:induction false} FairNext(c: Client, failed: bool, n: nat)
    requires Between(c) && Common(c, n)
    ensures Fair(if c.ftp.pending == [] then Emit(c, Done(failed)) else StartNextCommand(c), n)
    decreases Work(c), 7
  {
    if c.ftp.pending != [] {
      FairStart(c, n);
    } else {
      DoneTraced(c.past.trace, n, failed);
      SpeakNext(c.past.trace, Done(failed), c.net.ip6, c.past.log);
    }
  }

  lemma DoneTraced(t: seq<Signal>, n: nat, failed: bool)
    requires Traced(t, n) && StartsAfter(t)
    ensures Traced(t + [Done(failed)], n) && StartsAfter(t + [Done(failed)])
  {
  }

  lemma {:induction false} FairSendCommands(c: Client, n: nat)
    requires Live(c) && JustStarted(c, n) && HeadOk(c) && RawKind(c.ftp.pending[0].kind)
    ensures Fair(SendCommands(c, c.ftp.pending[0].raw), n)
    decreases Work(c), 4
  {
    if c.net.ctrl != Up || c.pi.state != Idle {
      FairError(c, n);
    } else {
      var s := c.(pi := c.pi.(queue := c.ftp.pending[0].raw));
      QueuedCore(c, n);
      FairStartNextCmd(s, n);
    }
  }

  lemma QueuedCore(c: Client, n: nat)
    requires JustStarted(c, n) && HeadOk(c) && RawKind(c.ftp.pending[0].kind)
    ensures Fair(c.(pi := c.pi.(queue := c.ftp.pending[0].raw)), n)
  {
  }

  /** Why an error may end the head of the queue. */
  ghost predicate Blamed(c: Client)
    requires c.ftp.pending != []
  {
    && (HeadIs(c, ConnectToHost) ==> c.ftp.state == Unconnected)
    && Speaks(c.now.lines, c.ftp.pending[0].raw, c.net.ip6, c.past.log)
    && (c.now.lines != [] ==>
          Fatal(c.ftp.pending[0].kind, Last(c.now.lines)) || Last(c.now.lines).code in {227, 229})
  }

  lemma {:induction false} FairError(c: Client, n: nat)
    requires Base(c.(pi := c.pi.(state := Idle)))
    requires Running(c.ftp) && Books(c.ftp, c.past.trace) && !c.ftp.closeWait
    requires c.net.ctrl != Opening && !(c.net.greeting && c.net.ctrl == Up)
    requires c.dtp.link != Down ==> !c.pi.waitClose && c.net.inbox == []
    requires Common(c, n) && Blamed(c) && !Forgiven(c)
    ensures Fair(PiError(c), n)
    decreases Work(c), 2
  {
    var s := Cleared(c);
    var a := AccountOf(c).(data := s.dtp.link);
    ClearedQuiet(c);
    ClearedCommon(c, n);
    PoppedBetween(s, true, a);
    PoppedCommon(s, true, a, n);
    FairNext(Popped(s, true, a), true, n);
  }

  lemma ClearedCommon(c: Client, n: nat)
    requires Common(c, n) && c.ftp.pending != []
    ensures Common(Cleared(c), n) && |Cleared(c).ftp.pending| == 1
  {
  }

  lemma FairSend(c: Client, n: nat)
    requires Running(c.ftp) && Fair(c, n) && c.pi.state != Waiting && c.pi.queue != [] && c.dtp.link != Opening
    ensures Fair(SendFirst(c), n)
  {
    if Edited(c).Some? {
      var l := Edited(c).value;
      var d := if c.pi.queue[0].verb == PORT then Listening(c) else c;
      SentOk(c, l);
      assert HeadOk(Send(d, l)) && Unwelcomed(Send(d, l));
      SentFair(d, l, n);
    } else {
      UnsentFair(c, n);
    }
  }

  lemma SentFair(c: Client, l: Line, n: nat)
    requires Running(c.ftp) && Fated(c, n) && c.pi.queue != []
    requires HeadOk(Send(c, l)) && Unwelcomed(Send(c, l))
    ensures Fair(Send(c, l), n)
  {
  }

  lemma UnsentFair(c: Client, n: nat)
    requires Running(c.ftp) && Fair(c, n) && c.pi.state != Waiting && c.pi.queue != []
    ensures Fair(c.(pi := c.pi.(cur := Some(c.pi.queue[0]))), n)
  {
  }

  lemma SentOk(c: Client, l: Line)
    requires Running(c.ftp) && HeadOk(c) && Unwelcomed(c) && c.pi.queue != [] && c.pi.state != Waiting
    requires c.pi.extended || TriedInVain(c.past.log)
    requires c.dtp.link != Opening && Edited(c) == Some(l)
    ensures HeadOk(Send(c, l)) && Unwelcomed(Send(c, l))
  {
    var w := c.now.lines + [Exchange(l, 0)];
    assert Last(w) == Exchange(l, 0);
    WelcomeAppend(c.now.lines, Exchange(l, 0));
    SpeaksNext(c, l);
    if HeadIs(c, Login) {
      LoginSends(c.pi, c.now.lines, c.ftp.state, l);
    }
  }

  lemma SpeaksNext(c: Client, l: Line)
    requires c.ftp.pending != [] && HeadOk(c) && c.pi.queue != [] && Edited(c) == Some(l)
    requires c.pi.extended || TriedInVain(c.past.log)
    ensures Speaks(c.now.lines + [Exchange(l, 0)], c.ftp.pending[0].raw, c.net.ip6, c.past.log)
  {
    assert c.pi.queue[0] in c.pi.queue;
  }

  lemma WelcomeAppend(w: seq<Exchange>, x: Exchange)
    ensures Welcome(w + [x]) <==> Welcome(w) || x.code == 230
  {
    if Welcome(w) {
      var i :| 0 <= i < |w| && w[i].code == 230;
      assert (w + [x])[i].code == 230;
    }
    if x.code == 230 {
      assert (w + [x])[|w|].code == 230;
    }
  }

  lemma LoginSends(pi: Pi, w: seq<Exchange>, q: QState, l: Line)
    requires LoginOk(pi, w, q) && !Welcome(w) && pi.queue != []
    requires pi.queue[0].verb in {USER, PASS} ==> l == pi.queue[0]
    ensures LoginOk(pi.(cur := Some(l), queue := pi.queue[1..], state := Waiting), w + [Exchange(l, 0)], q)
  {
    WelcomeAppend(w, Exchange(l, 0));
  }

  lemma {:induction false} FairStartNextCmd(c: Client, n: nat)
    requires Live(c) && c.pi.state != Waiting && !c.ftp.timer && Fated(c, n)
    requires c.pi.queue == [] ==> Settled(c)
    requires c.pi.waitConn ==> Unwelcomed(c)
    requires HeadIs(c, ConnectToHost) && c.pi.queue == [] && !c.pi.waitConn ==> c.net.ctrl == Up
    ensures Fair(StartNextCmd(c), n)
    decreases Work(c), 3
  {
    if !c.pi.waitConn {
      if c.pi.queue == [] {
        FairFinished(c.(pi := c.pi.(cur := None)), n);
      } else {
        FairSend(c, n);
      }
    }
  }

  // ------------------------------------------------------------------------------- replies

  /** The state in which the reaction to a final reply begins: its code is entered. */
  ghost predicate JustAnswered(c: Client, n: nat) {
    && Reacting(c) && Core(c, n) && RawKind(c.ftp.pending[0].kind)
    && c.now.lines != [] && c.pi.cur == Some(Last(c.now.lines).line) && Last(c.now.lines).code != 0
    && (c.pi.state == Failure <==> Last(c.now.lines).code / 100 !in {2, 3} || Last(c.now.lines).code == 202)
    && (c.pi.waitConn ==> Unwelcomed(c))
    && (c.pi.state == Failure && Extended(c.pi.cur.value) ==> TriedInVain(c.past.log))
  }

  lemma FairReact(c: Client, n: nat)
    requires JustAnswered(c, n)
    ensures Fair(React(c), n)
  {
    if c.pi.state == Failure {
      FairRefused(c, n);
    } else {
      FairStartNextCmd(c.(pi := c.pi.(state := Idle)), n);
    }
  }

  lemma FairRefused(c: Client, n: nat)
    requires JustAnswered(c, n) && c.pi.state == Failure
    ensures Fair(React(c), n)
  {
    if CurIs(c.pi, EPSV) {
      FairRetry(c, Line(PASV, ""), n);
    } else if CurIs(c.pi, EPRT) {
      FairRetry(c, Line(PORT, ""), n);
    } else if Forgiven(c) {
      FairStartNextCmd(c.(pi := c.pi.(state := Idle)), n);
    } else {
      FairFatal(c, n);
    }
  }

  lemma FairRetry(c: Client, l: Line, n: nat)
    requires JustAnswered(c, n) && c.pi.state == Failure && (CurIs(c.pi, EPSV) || CurIs(c.pi, EPRT))
    requires !Extended(l)
    ensures Fair(StartNextCmd(c.(pi := c.pi.(extended := false, queue := [l] + c.pi.queue, state := Idle))), n)
  {
    var s := c.(pi := c.pi.(extended := false, queue := [l] + c.pi.queue, state := Idle));
    assert !HeadIs(c, Login);
    assert forall x :: x in s.pi.queue ==> x == l || x in c.pi.queue;
    if !s.pi.waitConn {
      FairSend(s, n);
    }
  }

  lemma FairFatal(c: Client, n: nat)
    requires JustAnswered(c, n) && c.pi.state == Failure && !CurIs(c.pi, EPSV) && !CurIs(c.pi, EPRT) && !Forgiven(c)
    ensures var r := PiError(c);
            Fair(if r.pi.state != Waiting then StartNextCmd(r.(pi := r.pi.(state := Idle))) else r, n)
  {
    LivePiError(c);
    FairError(c, n);
    var r := PiError(c);
    if r.pi.state != Waiting {
      assert r.(pi := r.pi.(state := Idle)) == r;
      FairStartNextCmd(r, n);
    }
  }

  /** A line is awaited, and its final code is entered. */
  lemma AnsweredOk(c: Client, r: Reply, n: nat)
    requires Serving(c, r) && Fair(c, n)
    ensures var s := Answered(c, r.code);
            && RawKind(s.ftp.pending[0].kind) && s.now.lines != []
            && Last(s.now.lines) == Exchange(c.pi.cur.value, r.code)
            && (Welcome(s.now.lines) && HeadIs(c, Login) ==> r.code == 230)
            && (r.code == 230 ==> Welcome(s.now.lines))
            && (s.pi.state == Failure <==> r.code / 100 !in {2, 3} || r.code == 202)
            && s.pi.state in {Success, Idle, Failure} && s.pi.cur == c.pi.cur && s.pi.queue == c.pi.queue
            && s.ftp == c.ftp && s.net == c.net && s.dtp == c.dtp && s.past == c.past
            && Speaks(s.now.lines, c.ftp.pending[0].raw, c.net.ip6, c.past.log)
  {
    var w := c.now.lines;
    WelcomeFront(w, r.code);
    SpeaksFront(w, r.code, c.ftp.pending[0].raw, c.net.ip6, c.past.log);
  }

  lemma SpeaksFront(w: seq<Exchange>, code: nat, raw: seq<Line>, ip6: bool, log: seq<Handling>)
    requires w != [] && Speaks(w, raw, ip6, log)
    ensures Speaks(w[..|w| - 1] + [Exchange(Last(w).line, code)], raw, ip6, log)
  {
    WelcomeFront(w, code);
    assert forall i :: 0 <= i < |w| ==> (w[..|w| - 1] + [Exchange(Last(w).line, code)])[i].line == w[i].line;
  }

  lemma WelcomeFront(w: seq<Exchange>, code: nat)
    requires w != []
    ensures var v := w[..|w| - 1] + [Exchange(Last(w).line, code)];
            && Last(v) == Exchange(Last(w).line, code)
            && (Welcome(v) && !Welcome(w) ==> code == 230) && (code == 230 ==> Welcome(v))
            && |v| == |w| && forall i :: 0 <= i < |v| ==> v[i].line == w[i].line
  {
    var v := w[..|w| - 1] + [Exchange(Last(w).line, code)];
    assert v[|v| - 1].code == code;
    if Welcome(v) && code != 230 {
      var i :| 0 <= i < |v| && v[i].code == 230;
      assert w[i].code == 230;
    }
  }

  lemma LoginAnswered(pi: Pi, after: Pi, w: seq<Exchange>, q: QState, code: nat)
    requires LoginOk(pi, w, q) && !Welcome(w) && w != [] && code != 230 && after.queue == pi.queue
    ensures LoginOk(after, w[..|w| - 1] + [Exchange(Last(w).line, code)], q)
  {
    var v := w[..|w| - 1] + [Exchange(Last(w).line, code)];
    WelcomeFront(w, code);
    forall i | 0 <= i < |v| ensures v[i].line.verb in {USER, PASS} {
      assert v[i].line == w[i].line;
    }
  }

  lemma PlainCore(c: Client, r: Reply, n: nat)
    requires Serving(c, r) && Fair(c, n) && (r.code != 230 || HeadIs(c, RawCommand))
    ensures Core(Answered(c, r.code), n) && Unwelcomed(Answered(c, r.code))
  {
    AnsweredOk(c, r, n);
    if HeadIs(c, Login) {
      LoginAnswered(c.pi, Answered(c, r.code).pi, c.now.lines, c.ftp.state, r.code);
    }
    if HeadIs(c, Close) && Welcome(c.now.lines) {
      WelcomeStays(c.now.lines, r.code);
    }
  }

  lemma WelcomeStays(w: seq<Exchange>, code: nat)
    requires Welcome(w) && w != [] && Last(w).code != 230
    ensures Welcome(w[..|w| - 1] + [Exchange(Last(w).line, code)])
  {
    var i :| 0 <= i < |w| && w[i].code == 230;
    assert (w[..|w| - 1] + [Exchange(Last(w).line, code)])[i].code == 230;
  }

  /** The reply is in the log. */
  predicate InLog(c: Client, r: Reply) {
    c.past.log != [] && c.past.log[|c.past.log| - 1] == Served(r.cause, c.pi.cur, r.code)
  }

  lemma PlainServed(c: Client, r: Reply, n: nat)
    requires Serving(c, r) && Fair(c, n) && (r.code != 230 || HeadIs(c, RawCommand)) && InLog(c, r)
    requires Reacting(Answered(c, r.code))
    ensures JustAnswered(Answered(c, r.code), n)
  {
    AnsweredOk(c, r, n);
    PlainCore(c, r, n);
    if Answered(c, r.code).pi.state == Failure && Extended(c.pi.cur.value) {
      assert InVain(c.past.log[|c.past.log| - 1]);
    }
  }

  /** An address is given and a data connection opened. */
  lemma ConnectServed(s: Client, r: Reply, n: nat)
    requires JustAnswered(s, n) && Unwelcomed(s) && r.code in {227, 229} && Last(s.now.lines).code == r.code
    requires Reacting(ConnectData(s))
    ensures JustAnswered(ConnectData(s), n)
  {
  }

  /** A 230 logs in: PASS is dropped, and the state is LoggedIn. */
  lemma WelcomeServed(c: Client, r: Reply, n: nat)
    requires Serving(c, r) && Fair(c, n) && r.code == 230 && !HeadIs(c, RawCommand)
    requires Logs230(c.past.log)
    requires Reacting(PiConnectState(PassDropped(Answered(c, 230)), LoggedIn))
    ensures JustAnswered(PiConnectState(PassDropped(Answered(c, 230)), LoggedIn), n)
  {
    AnsweredOk(c, r, n);
    WelcomedHead(c, r, n);
    var s := PassDropped(Answered(c, 230));
    var d := s.(ftp := s.ftp.(state := LoggedIn));
    assert PiConnectState(s, LoggedIn) == d;
    WelcomedCommon(c, d, n);
  }

  lemma WelcomedCommon(c: Client, d: Client, n: nat)
    requires Common(c, n) && c.net.ctrl == Up && Logs230(c.past.log)
    requires d.ftp == c.ftp.(state := LoggedIn) && d.net == c.net && d.past == c.past && d.pi.extended == c.pi.extended
    ensures Common(d, n)
  {
  }

  lemma WelcomedHead(c: Client, r: Reply, n: nat)
    requires Serving(c, r) && Fair(c, n) && r.code == 230
    ensures var s := PassDropped(Answered(c, 230)); HeadOk(s.(ftp := s.ftp.(state := LoggedIn)))
  {
    AnsweredOk(c, r, n);
    if HeadIs(c, Login) {
      LoginWelcomed(c.pi, PassDropped(Answered(c, 230)).pi, c.now.lines, c.ftp.state);
    }
  }

  lemma LoginWelcomed(pi: Pi, after: Pi, w: seq<Exchange>, q: QState)
    requires LoginOk(pi, w, q) && w != [] && pi.cur == Some(Last(w).line)
    requires after.queue == if pi.cur.value.verb == USER && pi.queue != [] && pi.queue[0].verb == PASS
                            then pi.queue[1..] else pi.queue
    ensures LoginOk(after, w[..|w| - 1] + [Exchange(Last(w).line, 230)], LoggedIn)
  {
    var v := w[..|w| - 1] + [Exchange(Last(w).line, 230)];
    WelcomeFront(w, 230);
    forall i | 0 <= i < |v| ensures v[i].line.verb in {USER, PASS} {
      assert v[i].line == w[i].line;
    }
  }

  lemma SpecialServed(c: Client, r: Reply, n: nat)
    requires Serving(c, r) && Fair(c, n) && InLog(c, r)
    requires r.code == 230 ==> Logs230(c.past.log)
    requires Reacting(Answered(c, r.code)) && Reacting(SpecialAction(Answered(c, r.code), r))
    ensures JustAnswered(SpecialAction(Answered(c, r.code), r), n)
  {
    if r.code == 230 && !HeadIs(c, RawCommand) {
      SpecialIs(Answered(c, r.code), r);
      WelcomeServed(c, r, n);
    } else {
      PlainSpecial(c, r, n);
    }
  }

  lemma SpecialIs(s: Client, r: Reply)
    ensures SpecialAction(s, r) ==
            if HeadIs(s, RawCommand) then s
            else if r.code == 230 then PiConnectState(PassDropped(s), LoggedIn)
            else if r.code in {227, 229} && r.addrOk then ConnectData(s)
            else s
  {
  }

  lemma PlainSpecial(c: Client, r: Reply, n: nat)
    requires Serving(c, r) && Fair(c, n) && (r.code != 230 || HeadIs(c, RawCommand)) && InLog(c, r)
    requires Reacting(Answered(c, r.code)) && Reacting(SpecialAction(Answered(c, r.code), r))
    ensures JustAnswered(SpecialAction(Answered(c, r.code), r), n)
  {
    var s := Answered(c, r.code);
    SpecialIs(s, r);
    AnsweredOk(c, r, n);
    PlainCore(c, r, n);
    PlainServed(c, r, n);
    if SpecialAction(s, r) != s {
      ConnectServed(s, r, n);
    }
  }

  lemma LoggedFair(c: Client, h: Handling, n: nat)
    requires Fair(c, n)
    ensures Fair(Logged(c, h), n)
  {
    LogGrows(c, Logged(c, h), n);
  }

  /** More in the log does no harm. */
  lemma LogGrows(c: Client, d: Client, n: nat)
    requires Common(c, n) && c.past.log <= d.past.log && d.past.trace == c.past.trace
    requires d.ftp == c.ftp && d.net.ctrl == c.net.ctrl && d.net.ip6 == c.net.ip6 && d.pi.extended == c.pi.extended
    ensures Common(d, n) && (TriedInVain(c.past.log) ==> TriedInVain(d.past.log))
  {
    var a, b := c.past.log, d.past.log;
    if Logs230(a) {
      var i :| 0 <= i < |a| && a[i].Served? && a[i].code == 230;
      assert b[i] == a[i];
    }
    if TriedInVain(a) {
      var i :| 0 <= i < |a| && InVain(a[i]);
      assert b[i] == a[i];
    }
  }

  lemma FairServe(c: Client, r: Reply, n: nat)
    requires Serving(c, r) && Fair(c, n)
    ensures Fair(Serve(c, r), n)
  {
    var l := Logged(c, Served(r.cause, c.pi.cur, r.code));
    ServeReady(c, r, n);
    SpecialServed(l, r, n);
    FairReact(SpecialAction(Answered(l, r.code), r), n);
  }

  lemma ServeReady(c: Client, r: Reply, n: nat)
    requires Serving(c, r) && Fair(c, n)
    ensures var l := Logged(c, Served(r.cause, c.pi.cur, r.code));
            && Serving(l, r) && Fair(l, n) && InLog(l, r) && (r.code == 230 ==> Logs230(l.past.log))
            && Reacting(Answered(l, r.code)) && Reacting(SpecialAction(Answered(l, r.code), r))
  {
    var h := Served(r.cause, c.pi.cur, r.code);
    var l := Logged(c, h);
    AttributedAppend(c.past.log, r.cause, r.code);
    LoggedFair(c, h, n);
    AnsweredReacting(c, r);
    ReactingSpecial(Answered(l, r.code), r);
    assert l.past.log[|l.past.log| - 1] == h;
  }

  // ------------------------------------------------------------------------- one delivery

  /** None of this looks at the network but for the command connection, nor at the flags of the
      reader. */
  lemma FairFrame(c: Client, d: Client, n: nat)
    requires Fair(c, n)
    requires d.ftp == c.ftp && d.now == c.now && d.past.trace == c.past.trace && c.past.log <= d.past.log
    requires d.pi.state == c.pi.state && d.pi.queue == c.pi.queue && d.pi.cur == c.pi.cur
    requires d.net.ctrl == c.net.ctrl && (d.dtp.link == Opening ==> c.dtp.link == Opening)
    requires d.net.ip6 == c.net.ip6 && d.pi.extended == c.pi.extended
    ensures Fair(d, n)
  {
    LogGrows(c, d, n);
  }

  lemma {:induction false} FairReadLoop(c: Client, owed: seq<Line>, n: nat)
    requires Receiving(c, owed) && Fair(c, n)
    ensures Fair(ReadLoop(c), n)
    decreases |c.net.inbox|, 1
  {
    if c.net.inbox != [] {
      if Final(c.net.inbox[0].code) {
        FairFinal(c, owed, n);
      } else {
        FairPreliminary(c, owed, n);
      }
    }
  }

  lemma {:induction false} FairPreliminary(c: Client, owed: seq<Line>, n: nat)
    requires Receiving(c, owed) && Fair(c, n)
    requires c.net.inbox != [] && !Final(c.net.inbox[0].code)
    ensures Fair(ReadLoop(c), n)
    decreases |c.net.inbox|, 0
  {
    var u := AfterPreliminary(c);
    PreliminaryRead(c, owed);
    FairFrame(c, u, n);
    FairReadLoop(u, owed, n);
  }

  /** A 1yz reply has been read. */
  function AfterPreliminary(c: Client): Client
    requires c.net.inbox != []
  {
    var r := c.net.inbox[0];
    Logged(c.(net := c.net.(inbox := c.net.inbox[1..]), pi := c.pi.(busy := false)), Served(r.cause, c.pi.cur, r.code))
  }

  lemma PreliminaryRead(c: Client, owed: seq<Line>)
    requires Receiving(c, owed) && c.net.inbox != [] && !Final(c.net.inbox[0].code)
    ensures ReadLoop(c) == ReadLoop(AfterPreliminary(c)) && Receiving(AfterPreliminary(c), owed)
  {
    var r := c.net.inbox[0];
    OwedShape(c, owed);
    var s := c.(net := c.net.(inbox := c.net.inbox[1..]), pi := c.pi.(busy := true));
    PreliminaryServe(s, r);
    AttributedAppend(c.past.log, r.cause, r.code);
    assert ProcessReply(s, r) == (Logged(s, Served(r.cause, s.pi.cur, r.code)), true);
    assert Ready(AfterPreliminary(c), owed) == Logged(Ready(c, owed), Served(r.cause, s.pi.cur, r.code));
  }

  lemma FairFinal(c: Client, owed: seq<Line>, n: nat)
    requires Receiving(c, owed) && Fair(c, n)
    requires c.net.inbox != [] && Final(c.net.inbox[0].code)
    ensures Fair(ReadLoop(c), n)
  {
    var r := c.net.inbox[0];
    FinalIsLast(c, owed);
    var s := c.(net := c.net.(inbox := []), pi := c.pi.(busy := true));
    FairFrame(c, s, n);
    if !Holds(s, r) && s.pi.abort != WaitForAbortToFinish {
      OwedShape(c, owed);
      ServingFirst(s, r, owed);
    }
    FairProcess(s, r, n);
    FairRead(c, s, r, n);
  }

  lemma FairRead(c: Client, s: Client, r: Reply, n: nat)
    requires c.net.inbox == [r] && !c.pi.busy && s == c.(net := c.net.(inbox := []), pi := c.pi.(busy := true))
    requires Fair(ProcessReply(s, r).0, n)
    ensures Fair(ReadLoop(c), n)
  {
    var (t, done) := ProcessReply(s, r);
    ReadLast(c, s, r);
    FairFrame(t, t.(pi := t.pi.(busy := false)), n);
  }

  lemma FinalIsLast(c: Client, owed: seq<Line>)
    requires Receiving(c, owed) && c.net.inbox != [] && Final(c.net.inbox[0].code)
    ensures c.net.inbox == [c.net.inbox[0]] && owed != [] && c.net.unanswered == owed[1..]
  {
    OwedShape(c, owed);
    assert InOrder(owed[1..], c.net.inbox[1..]);
    assert c.net.unanswered == Left(owed[1..], c.net.inbox[1..]);
  }

  lemma FairProcess(s: Client, r: Reply, n: nat)
    requires Fair(s, n)
    requires !Holds(s, r) && s.pi.abort != WaitForAbortToFinish ==> Serving(Advanced(s), r)
    ensures Fair(ProcessReply(s, r).0, n)
  {
    var (t, done) := ProcessReply(s, r);
    if Holds(s, r) || s.pi.abort == WaitForAbortToFinish {
      FairFrame(s, t, n);
    } else {
      FairFrame(s, Advanced(s), n);
      FairServe(Advanced(s), r, n);
    }
  }

  // ---------------------------------------------------------------------------- greetings

  /** `finished` is reported after 220, perhaps twice. Of the connectToHosts that end now only the
      first was waiting for it. */
  lemma FairWelcome(u: Client, r: Reply, n: nat)
    requires Finishing(u) && u.pi.state == Idle && r.code == 220 && !u.pi.waitClose && u.net.ctrl == Up
    requires Core(u, n) && Unwelcomed(u) && ConnectEndsAs(u, n)
    ensures Fair(React(SpecialAction(PiFinished(u), r)), n)
  {
    LivePiFinished(u);
    FairFinished(u, n);
    var v := PiFinished(u);
    assert SpecialAction(v, r) == v;
    if v.pi.state == Idle {
      FairStartNextCmd(v, n);
    }
  }

  lemma FairWelcomeServe(s: Client, r: Reply, n: nat)
    requires Live(s) && s.pi.state == Begin && s.net.ctrl == Up && s.net.inbox == []
    requires r.code == 220 && r.cause == None && !s.net.greeting && !s.pi.waitClose
    requires Fair(s, n) && |s.past.trace| < n
    ensures Fair(Serve(s, r), n)
  {
    var h := Served(r.cause, s.pi.cur, r.code);
    var t := Logged(s, h);
    LoggedFair(s, h, n);
    WelcomeLogged(s);
    var u := t.(pi := t.pi.(state := Idle));
    assert Core(u, n);
    FairWelcome(u, r, n);
  }

  lemma {:induction false} FairGreeting(c: Client, n: nat)
    requires Greeted(c) && Fair(c, n) && |c.past.trace| < n
    ensures Fair(ReadLoop(c), n)
    decreases |c.net.inbox|
  {
    if c.net.inbox != [] {
      var r := c.net.inbox[0];
      if r.code != 220 {
        var s := c.(net := c.net.(inbox := c.net.inbox[1..]), pi := c.pi.(busy := true));
        var t := Logged(s, Served(r.cause, s.pi.cur, r.code));
        GreetingIgnored(c);
        GreetingLogged(c);
        assert t.(pi := t.pi.(busy := false)) == Logged(c.(net := s.net), Served(r.cause, s.pi.cur, r.code));
        FairFrame(c, t.(pi := t.pi.(busy := false)), n);
        FairGreeting(t.(pi := t.pi.(busy := false)), n);
      } else {
        FairGreetingLast(c, n);
      }
    }
  }

  lemma FairGreetingLast(c: Client, n: nat)
    requires Greeted(c) && Fair(c, n) && |c.past.trace| < n
    requires c.net.inbox != [] && c.net.inbox[0].code == 220
    ensures Fair(ReadLoop(c), n)
  {
    var r := c.net.inbox[0];
    var s := c.(net := c.net.(inbox := []), pi := c.pi.(busy := true));
    LiveBusy(c.(net := c.net.(inbox := [])));
    FairFrame(c, s, n);
    FairGreetingRead(c, s, r, n);
  }

  lemma FairGreetingRead(c: Client, s: Client, r: Reply, n: nat)
    requires c.net.inbox == [r] && !c.pi.busy && s == c.(net := c.net.(inbox := []), pi := c.pi.(busy := true))
    requires Live(s) && s.pi.state == Begin && s.net.ctrl == Up && r.code == 220 && r.cause == None
    requires !s.net.greeting && !s.pi.waitClose && Fair(s, n) && |s.past.trace| < n
    ensures Fair(ReadLoop(c), n)
  {
    FairWelcomeServe(s, r, n);
    assert ProcessReply(s, r) == (Serve(s, r), true);
    ReadLast(c, s, r);
    FairFrame(Serve(s, r), Serve(s, r).(pi := Serve(s, r).pi.(busy := false)), n);
  }

  // -------------------------------------------------------------------------- other events

  lemma FairUser(c: Client, r: Request, n: nat)
    requires Rest(c) && Fair(c, n) && Shape(r)
    ensures Fair(Step(c, UserAdds(r)), n)
  {
    AppendQueued(c.ftp, c.past.trace, r);
    assert c.ftp.pending == [] ==> !c.ftp.timer;
    AppendedFair(c, r, n);
  }

  lemma AppendedFair(c: Client, r: Request, n: nat)
    requires Fair(c, n) && (c.ftp.pending == [] ==> !c.ftp.timer)
    requires QueuedAfter(Append(c.ftp, [r]), c.past.trace) && LoginsRaw(Append(c.ftp, [r]))
    ensures Fair(Step(c, UserAdds(r)), n)
  {
    assert c.ftp.pending != [] ==> Append(c.ftp, [r]).pending[0] == c.ftp.pending[0];
  }

  lemma AppendQueued(f: Ftp, t: seq<Signal>, r: Request)
    requires QueuedAfter(f, t) && LoginsRaw(f) && LoginRaw(r.kind, r.raw)
    ensures QueuedAfter(Append(f, [r]), t) && LoginsRaw(Append(f, [r]))
  {
  }

  lemma FairFire(c: Client, n: nat)
    requires Rest(c) && Fair(c, n) && Enabled(c, Fire)
    ensures Fair(Step(c, Fire), n)
  {
    FairStart(c.(ftp := c.ftp.(timer := false)), n);
  }

  /** While the connection is being set up only ConnectToHost runs. */
  lemma SettingUp(c: Client)
    requires Rest(c) && c.net.ctrl == Opening
    ensures !c.pi.waitClose && !c.ftp.closeWait && HeadIs(c, ConnectToHost) && Running(c.ftp)
    ensures c.pi.state != Waiting && c.pi.queue == [] && c.dtp.link != Opening
  {
  }

  lemma FairSetUp(c: Client, e: Event, n: nat)
    requires Rest(c) && Fair(c, n) && Enabled(c, e) && e in {HostFound, ControlOpens}
    ensures Fair(Step(c, e), n)
  {
    SettingUp(c);
  }

  lemma FairControlFails(c: Client, n: nat)
    requires Rest(c) && Fair(c, n) && Enabled(c, ControlFails)
    ensures Fair(Step(c, ControlFails), n)
  {
    SettingUp(c);
    FailsBlamed(c, n);
    var s := c.(net := c.net.(ctrl := Down), ftp := c.ftp.(state := Unconnected));
    assert PiConnectState(c.(net := c.net.(ctrl := Down)), Unconnected) == s;
    FairError(s, n);
  }

  lemma FailsBlamed(c: Client, n: nat)
    requires Fair(c, n) && HeadIs(c, ConnectToHost) && Running(c.ftp)
    ensures var s := c.(net := c.net.(ctrl := Down), ftp := c.ftp.(state := Unconnected));
            Common(s, n) && Blamed(s) && !Forgiven(s)
  {
  }

  lemma FairControlCloses(c: Client, n: nat)
    requires Rest(c) && Fair(c, n)
    ensures Fair(ControlDown(Lost(c)), n)
  {
    var s := Lost(c).(net := Lost(c).net.(ctrl := Down), ftp := c.ftp.(state := Unconnected, closeWait := false));
    assert Outstanding(Lost(c)) == Outstanding(c);
    if !c.pi.waitClose && c.ftp.closeWait {
      LivePiFinished(s);
      FairFinished(s, n);
    }
  }

  lemma FairDataOpens(c: Client, n: nat)
    requires Rest(c) && Fair(c, n) && Enabled(c, DataOpens)
    ensures Fair(DataUp(c), n)
  {
    var s := c.(dtp := c.dtp.(link := Up), pi := c.pi.(waitConn := false), now := c.now.(dataUp := true));
    FairStartNextCmd(s, n);
  }

  lemma FairDataFails(c: Client, n: nat)
    requires Rest(c) && Fair(c, n) && Enabled(c, DataFails)
    ensures Fair(DataRefused(c), n)
  {
    var s := c.(dtp := c.dtp.(link := Down));
    FairFrame(c, s, n);
    if !Forgiven(s) {
      LivePiError(s);
      FairError(s, n);
    }
  }

  lemma FairReleased(u: Client, n: nat)
    requires Live(u) && u.pi.waitClose && Fair(u, n)
    ensures Fair(ReadyRead(u.(pi := u.pi.(busy := false, waitClose := false))), n)
  {
    var v := u.(pi := u.pi.(busy := false, waitClose := false));
    FairFrame(u, v, n);
    if u.net.inbox != [] {
      var r := u.net.inbox[0];
      assert v.net.inbox == [r];
      var s := v.(net := v.net.(inbox := []), pi := v.pi.(busy := true));
      ReadLast(v, s, r);
      assert ProcessReply(s, r) == (Logged(s.(pi := s.pi.(abort := NoAbort)), Swallowed(r.cause)), true);
      FairFrame(v, ReadLoop(v), n);
    }
  }

  lemma FairDataCloses(c: Client, n: nat)
    requires Rest(c) && Fair(c, n)
    ensures Fair(DataDown(c), n)
  {
    var s := c.(dtp := c.dtp.(link := Down, dev := false));
    FairFrame(c, s, n);
    if c.pi.waitClose {
      HeldServing(c);
      FairFrame(s, Advanced(s), n);
      FairServe(Advanced(s), s.pi.held, n);
      LiveServe(Advanced(s), s.pi.held);
      var u := Serve(Advanced(s), s.pi.held);
      assert ProcessReply(s, s.pi.held) == (u, true);
      FairReleased(u, n);
      assert DataDown(c) == ReadyRead(u.(pi := u.pi.(busy := false, waitClose := false)));
    } else {
      assert c.net.inbox == [];
    }
  }

  /** The bytes that come do not matter either. */
  lemma FairBytes(c: Client, wire: seq<byte>, device: seq<byte>, n: nat)
    requires Fair(c, n)
    ensures Fair(c.(now := c.now.(wire := wire, device := device)), n)
  {
  }

  lemma FairDataComes(c: Client, chunk: seq<byte>, n: nat)
    requires Rest(c) && Fair(c, n)
    ensures Fair(DataArrives(c, chunk), n)
  {
    var s := c.(now := c.now.(wire := c.now.wire + chunk));
    FairBytes(c, c.now.wire + chunk, c.now.device, n);
    if s.pi.cur == None {
      D.WiredRest(c, chunk);
      FairDataCloses(s, n);
      DataClosesRest(s);
    } else {
      FairBytes(s, s.now.wire, s.now.device + chunk, n);
    }
  }

  lemma FairAbort(c: Client, n: nat)
    requires Rest(c) && Fair(c, n) && Enabled(c, AbortCalled)
    ensures Fair(Step(c, AbortCalled), n)
  {
    var m := Noted(c, false);
    NotedRest(c, false);
    AbortSent(m);
    var t := m.(ftp := m.ftp.(pending := m.ftp.pending[..1]),
                pi := m.pi.(queue := [], abort := AbortStarted),
                now := m.now.(aborted := true),
                net := m.net.(unanswered := m.net.unanswered + [AborLine]));
    AbortedFair(m, t, n);
    if CurIs(t.pi, STOR) && t.dtp.link != Down {
      FairDataCloses(t, n);
    } else {
      FairFrame(t, t.(dtp := t.dtp.(dev := false)), n);
    }
  }

  lemma AbortedFair(m: Client, t: Client, n: nat)
    requires Fair(m, n) && Running(m.ftp) && t.dtp == m.dtp && t.past == m.past
    requires t.ftp == m.ftp.(pending := m.ftp.pending[..1]) && t.now == m.now.(aborted := true)
    requires t.pi == m.pi.(queue := [], abort := AbortStarted)
    requires t.net.ctrl == m.net.ctrl && t.net.ip6 == m.net.ip6
    ensures Fair(t, n)
  {
  }

  lemma FairDelivery(c: Client, rs: seq<Reply>, n: nat)
    requires Rest(c) && Fair(c, n) && Enabled(c, Delivery(rs)) && (c.net.greeting ==> |c.past.trace| < n)
    ensures Fair(Step(c, Delivery(rs)), n)
  {
    var t := Taken(c, rs);
    FairFrame(c, t, n);
    if !c.pi.waitClose {
      assert c.net.inbox == [] && t.net.inbox == rs;
      if c.net.greeting {
        FairGreeting(t, n);
      } else {
        DeliveryReceived(c, rs);
        FairReadLoop(t, c.net.unanswered, n);
      }
    }
  }

  // -------------------------------------------------------------------------------- runs

  lemma FairStep(c: Client, e: Event, n: nat)
    requires Rest(c) && Fair(c, n) && Enabled(c, e)
    requires e.Delivery? && c.net.greeting ==> |c.past.trace| < n
    ensures Fair(Step(c, e), n)
  {
    match e
    case UserAdds(r) => FairUser(c, r, n);
    case Fire => FairFire(c, n);
    case ControlFails => FairControlFails(c, n);
    case ControlCloses => FairControlCloses(c, n);
    case Delivery(rs) => FairDelivery(c, rs, n);
    case DataOpens => FairDataOpens(c, n);
    case DataFails => FairDataFails(c, n);
    case DataCloses => FairDataCloses(c, n);
    case DataAccepted => FairFrame(c, Step(c, e), n);
    case DataComes(chunk) => FairDataComes(c, chunk, n);
    case AbortCalled => FairAbort(c, n);
    case _ => FairSetUp(c, e, n);
  }

  lemma FairFrom(c: Client, n: nat, m: nat)
    requires Fair(c, n) && (n <= m || |c.past.trace| <= m)
    ensures Fair(c, m)
  {
  }

  lemma {:induction false} FairRun(c: Client, es: seq<Event>, n: nat)
    requires Rest(c) && Allowed(c, es) && Fair(c, n)
    ensures Fair(Run(c, es), |Run(c, es).past.trace|)
    decreases |es|
  {
    if es == [] {
      FairFrom(c, n, |c.past.trace|);
    } else {
      FairFrom(c, n, |c.past.trace| + 1);
      FairStep(c, es[0], |c.past.trace| + 1);
      StepRest(c, es[0]);
      FairRun(Step(c, es[0]), es[1..], |c.past.trace| + 1);
    }
  }

  lemma FairInit(ip6: bool, local: string, plan: seq<seq<Request>>)
    requires ShapedPlan(plan)
    ensures Rest(Init(ip6, local, plan)) && Fair(Init(ip6, local, plan), 0)
  {
    InitRest(ip6, local, plan);
    forall i, j | 0 <= i < |plan| && 0 <= j < |plan[i]| ensures LoginRaw(plan[i][j].kind, plan[i][j].raw) {
      assert Shapes(plan[i]);
      assert Shape(plan[i][j]);
    }
  }

  lemma FairReachable(ip6: bool, local: string, plan: seq<seq<Request>>, es: seq<Event>)
    requires Allowed(Init(ip6, local, plan), es) && ShapedPlan(plan)
    ensures var c := Run(Init(ip6, local, plan), es); Rest(c) && Fair(c, |c.past.trace|)
  {
    FairInit(ip6, local, plan);
    FairRun(Init(ip6, local, plan), es, 0);
    RunRest(Init(ip6, local, plan), es);
  }

  /** Over all runs, what each finished command reports: a login with a line answered 230 has
      succeeded only in state LoggedIn; connectToHost has succeeded in state Connected, or HostLookup
      if it was hasty, and failed in state Unconnected; and a command that failed after it had
      written a line has been refused that line for good, or its data connection. */
  lemma EndsAreTold(ip6: bool, local: string, plan: seq<seq<Request>>, es: seq<Event>)
    requires Allowed(Init(ip6, local, plan), es) && ShapedPlan(plan)
    ensures var t := Run(Init(ip6, local, plan), es).past.trace;
            forall i :: 0 <= i < |t| && t[i].Finished? ==> Ends(t[i].cmd, t[i].failed, t[i].account)
  {
    FairReachable(ip6, local, plan, es);
  }

  /** Over all runs: nothing that was queued when a command failed is ever started, or is still
      queued; only what was enqueued from then on, the slot on its commandFinished included. */
  lemma FailureCutsTheQueue(ip6: bool, local: string, plan: seq<seq<Request>>, es: seq<Event>)
    requires Allowed(Init(ip6, local, plan), es) && ShapedPlan(plan)
    ensures var c := Run(Init(ip6, local, plan), es);
            StartsAfter(c.past.trace) && QueuedAfter(c.ftp, c.past.trace)
  {
    FairReachable(ip6, local, plan, es);
  }

  /** Over all runs: state() fits the command connection; it is LoggedIn only after a 230; while
      close() runs it is Closing until the connection is down; and while connectToHost runs over a
      connection that is up it is Connected until the greeting has come. */
  lemma StateFitsConnection(ip6: bool, local: string, plan: seq<seq<Request>>, es: seq<Event>)
    requires Allowed(Init(ip6, local, plan), es) && ShapedPlan(plan)
    ensures var c := Run(Init(ip6, local, plan), es);
            && Fits(c.ftp.state, c.net.ctrl) && Earned(c.ftp.state, c.past.log)
            && (Running(c.ftp) ==> ConnectOk(c))
            && (Running(c.ftp) && HeadIs(c, Close) ==>
                  c.ftp.state in {Closing, Unconnected} || (c.ftp.state == LoggedIn && Welcome(c.now.lines)))
  {
    FairReachable(ip6, local, plan, es);
  }

  /** Over all runs: PASV is written over IPv6 only after EPSV or EPRT was refused, so EPSV is tried
      first; and over IPv4 neither is written unless the user has asked for it. */
  lemma ExtendedFirst(ip6: bool, local: string, plan: seq<seq<Request>>, es: seq<Event>)
    requires Allowed(Init(ip6, local, plan), es) && ShapedPlan(plan)
    ensures var c := Run(Init(ip6, local, plan), es);
            && AllSpeak(c.past.trace, c.net.ip6, c.past.log)
            && (Running(c.ftp) ==> Speaks(c.now.lines, c.ftp.pending[0].raw, c.net.ip6, c.past.log))
  {
    FairReachable(ip6, local, plan, es);
  }

  /** The first signal between c and d is the end of the command that ran, with that state. */
  predicate EndsFirst(c: Client, d: Client, failed: bool, q: QState) {
    var t, n := d.past.trace, |c.past.trace|;
    && n < |t| && t[n].Finished? && t[n].failed == failed && t[n].account.qstate == q
    && c.ftp.pending != [] && t[n].cmd == c.ftp.pending[0]
  }

  lemma EndsFirstExtends(c: Client, d: Client, e: Client, failed: bool, q: QState)
    requires EndsFirst(c, d, failed, q) && Extends(d, e)
    ensures EndsFirst(c, e, failed, q)
  {
    assert e.past.trace[|c.past.trace|] == d.past.trace[|c.past.trace|];
  }

  /** What the events of the command connection set state() to. */
  predicate EventTells(c: Client, e: Event, d: Client) {
    match e
    case HostFound => d.ftp.state == Connecting && d.past.trace == c.past.trace
    case ControlOpens => d.ftp.state == Connected && d.past.trace == c.past.trace
    case ControlCloses => !c.ftp.closeWait ==> d.ftp.state == Unconnected && d.past.trace == c.past.trace
    case ControlFails => EndsFirst(c, d, true, Unconnected)
    case UserAdds(r) => r.kind in {ConnectToHost, SetTransferMode} ==> d.pi.extended
    case _ => true
  }

  /** In every reachable state. A connectToHost whose connection fails is ended in Unconnected; while
      close() waits for the connection to go down, that ends it. */
  lemma EventsSetState(ip6: bool, local: string, plan: seq<seq<Request>>, es: seq<Event>, e: Event)
    requires Allowed(Init(ip6, local, plan), es) && Enabled(Run(Init(ip6, local, plan), es), e)
    ensures EventTells(Run(Init(ip6, local, plan), es), e, Step(Run(Init(ip6, local, plan), es), e))
  {
    InitRest(ip6, local, plan);
    RunRest(Init(ip6, local, plan), es);
    EventFrom(Run(Init(ip6, local, plan), es), e);
  }

  lemma EventFrom(c: Client, e: Event)
    requires Rest(c) && Enabled(c, e)
    ensures EventTells(c, e, Step(c, e))
  {
    if e in {HostFound, ControlOpens} {
      SettingUp(c);
    } else if e == ControlFails {
      SettingUp(c);
      ControlFailsFirst(c);
    } else if e.UserAdds? {
      assert [e.request][0] == e.request;
    }
  }

  lemma ControlFailsFirst(c: Client)
    requires HeadIs(c, ConnectToHost) && !c.ftp.closeWait
    ensures EndsFirst(c, Step(c, ControlFails), true, Unconnected)
  {
    var s := PiConnectState(c.(net := c.net.(ctrl := Down)), Unconnected);
    var z := Cleared(s);
    var p := Popped(z, true, AccountOf(s).(data := z.dtp.link));
    assert p.past.trace[|c.past.trace|] == Finished(c.ftp.pending[0], true, AccountOf(s).(data := z.dtp.link));
    GrowsStartNextCommand(p);
    EndsFirstExtends(c, p, Step(c, ControlFails), true, Unconnected);
  }

  // ---------------------------------------------------------------- without a connection

  /** Nothing that needs the connection runs. */
  ghost predicate OnlyDials(c: Client) { Running(c.ftp) ==> HeadIs(c, ConnectToHost) }

  lemma {:induction false} ClosedStart(c: Client)
    requires Between(c) && c.net.ctrl == Down
    ensures OnlyDials(StartNextCommand(c))
    decreases Work(c), 6
  {
    if c.ftp.pending != [] {
      BegunLive(c);
      PreparedLive(Begun(c));
      ClosedDispatch(Prepared(Begun(c)));
    }
  }

  lemma {:induction false} ClosedDispatch(c: Client)
    requires Live(c) && Quiet(c) && Running(c.ftp) && c.net.ctrl == Down
    requires HeadIs(c, Close) ==> c.ftp.state == Closing
    ensures OnlyDials(Dispatch(c))
    decreases Work(c), 5
  {
    match c.ftp.pending[0].kind
    case SetTransferMode => ClosedPopped(c);
    case SetProxy =>
      ProxySetLive(c);
      ClosedPopped(ProxySet(c));
    case ConnectToHost => ClosedDial(c);
    case _ =>
      ClosedSends(c);
      ClosedError(c);
  }

  lemma ClosedDial(c: Client)
    requires HeadIs(c, ConnectToHost) && !c.ftp.closeWait
    ensures HeadIs(Dial(c), ConnectToHost)
  {
    assert PiConnectState(c, HostLookup) == c.(ftp := c.ftp.(state := HostLookup));
  }

  lemma ClosedSends(c: Client)
    requires c.ftp.pending != [] && RawKind(c.ftp.pending[0].kind) && c.pi.queue == [] && c.net.ctrl == Down
    ensures Dispatch(c) == PiError(c)
  {
  }

  lemma {:induction false} ClosedPopped(c: Client)
    requires Finishing(c) && Running(c.ftp) && c.net.ctrl == Down && Quiet(c)
    requires HeadIs(c, Close) ==> c.ftp.state == Unconnected
    ensures OnlyDials(PiFinished(c))
    decreases Work(c), 2
  {
    var s := Popped(c, false, AccountOf(c));
    PoppedBetween(c, false, AccountOf(c));
    if s.ftp.pending != [] {
      ClosedStart(s);
    }
  }

  lemma {:induction false} ClosedError(c: Client)
    requires Base(c.(pi := c.pi.(state := Idle)))
    requires Running(c.ftp) && Books(c.ftp, c.past.trace) && !c.ftp.closeWait && c.net.ctrl == Down && !Forgiven(c)
    requires c.dtp.link != Down ==> !c.pi.waitClose && c.net.inbox == []
    ensures OnlyDials(PiError(c))
    decreases Work(c), 2
  {
    var s := Cleared(c);
    var a := AccountOf(c).(data := s.dtp.link);
    ClearedQuiet(c);
    PoppedBetween(s, true, a);
    if Popped(s, true, a).ftp.pending != [] {
      ClosedStart(Popped(s, true, a));
    }
  }

  /** The connection is closed, or closed by this event, and the next command is started. */
  predicate StartsClosed(c: Client, e: Event) {
    || (e == Fire && c.net.ctrl == Down) || e == ControlFails
    || (e == ControlCloses && c.ftp.closeWait && !c.pi.waitClose)
  }

  /** No command waits for a connection that is not there: none runs afterwards but connectToHost. */
  lemma NotConnectedEnds(ip6: bool, local: string, plan: seq<seq<Request>>, es: seq<Event>, e: Event)
    requires Allowed(Init(ip6, local, plan), es) && Enabled(Run(Init(ip6, local, plan), es), e)
    requires StartsClosed(Run(Init(ip6, local, plan), es), e)
    ensures OnlyDials(Step(Run(Init(ip6, local, plan), es), e))
  {
    InitRest(ip6, local, plan);
    RunRest(Init(ip6, local, plan), es);
    ClosedFrom(Run(Init(ip6, local, plan), es), e);
  }

  lemma ClosedFrom(c: Client, e: Event)
    requires Rest(c) && Enabled(c, e) && StartsClosed(c, e)
    ensures OnlyDials(Step(c, e))
  {
    if e == Fire {
      ClosedStart(c.(ftp := c.ftp.(timer := false)));
    } else if e == ControlFails {
      SettingUp(c);
      ClosedError(PiConnectState(c.(net := c.net.(ctrl := Down)), Unconnected));
    } else {
      ClosedClose(c);
    }
  }

  lemma ClosedClose(c: Client)
    requires Rest(c) && c.ftp.closeWait && !c.pi.waitClose
    ensures OnlyDials(ControlDown(Lost(c)))
  {
    assert Outstanding(Lost(c)) == Outstanding(c);
    ClosedPopped(Lost(c).(net := Lost(c).net.(ctrl := Down), ftp := c.ftp.(state := Unconnected, closeWait := false)));
  }

  // ------------------------------------------------------------------------------- aborts

  /** abort() takes back all that was queued behind the command that runs, sends ABOR, and cuts the
      data connection of an upload and no other. */
  lemma AbortCuts(ip6: bool, local: string, plan: seq<seq<Request>>, es: seq<Event>)
    requires Allowed(Init(ip6, local, plan), es) && Enabled(Run(Init(ip6, local, plan), es), AbortCalled)
    ensures AbortTells(Run(Init(ip6, local, plan), es), Step(Run(Init(ip6, local, plan), es), AbortCalled))
  {
    InitRest(ip6, local, plan);
    RunRest(Init(ip6, local, plan), es);
    var c := Run(Init(ip6, local, plan), es);
    AbortFrom(c);
  }

  predicate AbortTells(c: Client, d: Client) {
    && (CurIs(c.pi, STOR) ==> d.dtp.link == Down)
    && (!CurIs(c.pi, STOR) ==> d.dtp == c.dtp)
    && (!CurIs(c.pi, STOR) || !c.pi.waitClose ==>
          && d.ftp == c.ftp.(pending := c.ftp.pending[..if c.ftp.pending == [] then 0 else 1])
          && d.net == c.net.(unanswered := c.net.unanswered + [Line(ABOR, "")])
          && d.past.trace == c.past.trace)
  }

  lemma AbortFrom(c: Client)
    requires Rest(c) && Enabled(c, AbortCalled)
    ensures AbortTells(c, Step(c, AbortCalled))
  {
    var m := Noted(c, false);
    NotedRest(c, false);
    AbortSent(m);
    var t := m.(ftp := m.ftp.(pending := m.ftp.pending[..1]),
                pi := m.pi.(queue := [], abort := AbortStarted),
                now := m.now.(aborted := true),
                net := m.net.(unanswered := m.net.unanswered + [AborLine]));
    if CurIs(t.pi, STOR) && t.dtp.link != Down {
      CutClosed(t);
    }
  }

  lemma CutClosed(t: Client)
    requires Rest(t)
    ensures DataDown(t).dtp.link == Down
    ensures !t.pi.waitClose ==> DataDown(t) == t.(dtp := t.dtp.(link := Down, dev := false))
  {
    if t.pi.waitClose {
      var s := t.(dtp := t.dtp.(link := Down, dev := false));
      HeldServing(t);
      LiveServe(Advanced(s), s.pi.held);
      CutReleased(Serve(Advanced(s), s.pi.held));
      assert ProcessReply(s, s.pi.held) == (Serve(Advanced(s), s.pi.held), true);
    } else {
      assert t.net.inbox == [];
    }
  }

  lemma CutReleased(u: Client)
    requires Live(u) && u.pi.waitClose && u.dtp.link == Down
    ensures ReadyRead(u.(pi := u.pi.(busy := false, waitClose := false))).dtp.link == Down
  {
    var v := u.(pi := u.pi.(busy := false, waitClose := false));
    if u.net.inbox != [] {
      var r := u.net.inbox[0];
      assert v.net.inbox == [r];
      var s := v.(net := v.net.(inbox := []), pi := v.pi.(busy := true));
      ReadLast(v, s, r);
      assert ProcessReply(s, r) == (Logged(s.(pi := s.pi.(abort := NoAbort)), Swallowed(r.cause)), true);
    }
  }
}
