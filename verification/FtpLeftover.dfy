/**
 A data connection that was left over from an earlier transfer: whatever the queue holds, as long
 as it leads to a download, the data of that download are lost in some lawful continuation.
 */
module FtpLeftover {
  import opened Text
  import opened FtpTypes
  import opened FtpSpec
  import opened FtpRun
  import opened FtpControl
  import opened FtpLockstep
  import opened FtpScript
  import opened FtpTransfer
  import opened FtpDelivery
  import opened FtpSession
  import opened FtpProgress
  import Q = FtpQueue

  // ------------------------------------------------------------------------- lossy downloads

  /** A lawful continuation without another early end leaves a finished download incomplete. */
  ghost predicate CanLose(c: Client, early: nat) {
    exists es :: Allowed(c, es) && Loses(Run(c, es), early)
  }

  ghost predicate Loses(c: Client, early: nat) {
    c.past.lawful && c.past.early == early && !Complete(c)
  }

  lemma LosesBefore(c: Client, e: Event, early: nat)
    requires Enabled(c, e) && CanLose(Step(c, e), early)
    ensures CanLose(c, early)
  {
    var es :| Allowed(Step(c, e), es) && Loses(Run(Step(c, e), es), early);
    StepThen(c, e, es);
    assert Loses(Run(c, [e] + es), early);
  }

  lemma {:induction false} LosesAfter(c: Client, es: seq<Event>, early: nat)
    requires Allowed(c, es) && CanLose(Run(c, es), early)
    ensures CanLose(c, early)
    decreases |es|
  {
    if es != [] {
      LosesAfter(Step(c, es[0]), es[1..], early);
      LosesBefore(c, es[0], early);
    }
  }

  /** A download into a device, in passive mode. */
  predicate SinkGet(cmd: Cmd) {
    cmd.kind == Get && cmd.sink && Scripted(cmd) && cmd.raw[2].verb == PASV
  }

  lemma ServedRecord(c: Client, r: Reply, l: Line)
    requires Live(c) && !c.pi.waitClose && c.pi.abort == NoAbort && c.pi.state == Waiting
    requires c.net.ctrl == Up && c.net.inbox == [] && c.net.unanswered == [l] && !c.net.greeting
    requires r.cause == Some(l) && Final(r.code) && 100 <= r.code < 600 && c.pi.cur == Some(l)
    ensures SameRecord(Taken(c, [r]).past, Serve(Answering(c, r), r).past)
  {
    var s := Answering(c, r);
    assert [l][1..] == [] && Left([l], [r]) == Left([], [r][1..]) == [];
    assert Outstanding(c) == [l] && Outstanding(s) == [];
    LiveServe(s, r);
  }

  /** The trace holds a download that was reported as finished and has not got its data. */
  lemma FinishedIncomplete(d: Client, i: nat)
    requires i < |d.past.trace| && d.past.trace[i].Finished? && !d.past.trace[i].failed
    requires d.past.trace[i].cmd.kind == Get && d.past.trace[i].cmd.sink
    requires d.past.trace[i].account.device != d.past.trace[i].account.wire
    ensures !Complete(d)
  {
    assert !Delivered(d.past.trace[i].cmd, d.past.trace[i].failed, d.past.trace[i].account);
  }

  lemma ProceedsExtends(g: Client)
    ensures Extends(g, Proceeds(g))
  {
    if g.ftp.pending != [] {
      GrowsStartNextCommand(g);
    }
  }

  /** The server ends a download whose data have passed its device by. */
  lemma RetrEnds(c: Client, cmd: Cmd, l: Line)
    requires Rest(c) && Sent(c, cmd, l, []) && l.verb == RETR && cmd.kind == Get && cmd.sink
    requires c.dtp.link == Down && c.now.device != c.now.wire
    ensures CanLose(c, c.past.early)
  {
    var r := Reply(226, false, Some(l));
    HeadEnds(c, cmd, l, r);
    var t := AllAnswered(c, r);
    var g := Over(t);
    Q.PoppedTail(t, false, AccountOf(t));
    ProceedsExtends(g);
    var d := Step(c, Delivery([r]));
    assert d.past.trace[|c.past.trace|] == g.past.trace[|c.past.trace|];
    FinishedIncomplete(d, |c.past.trace|);
    OneReply(c, l, r);
    TakenRecord(c, r);
    ServedRecord(c, r, l);
    assert Allowed(d, []) && Loses(Run(d, []), c.past.early);
    LosesBefore(c, Delivery([r]), c.past.early);
  }

  /** RETR is on the wire, the data connection up and the device gone. */
  lemma RetrLoses(c: Client, cmd: Cmd, l: Line)
    requires Rest(c) && Sent(c, cmd, l, []) && l.verb == RETR && cmd.kind == Get && cmd.sink
    requires c.dtp.link == Up && !c.dtp.dev && c.now.device == [] && c.now.wire == []
    ensures CanLose(c, c.past.early)
  {
    var c1 := Step(c, DataComes([7]));
    DataPassesBy(c, cmd, l, 7);
    StepRest(c, DataComes([7]));
    StepRest(c1, DataCloses);
    RetrEnds(Step(c1, DataCloses), cmd, l);
    LosesBefore(c1, DataCloses, c.past.early);
    LosesBefore(c, DataComes([7]), c.past.early);
  }

  function Address(l: Line): Reply { Reply(if l.verb == PASV then 227 else 229, true, Some(l)) }

  lemma AskedLoses(c: Client, cmd: Cmd, l: Line, last: Line)
    requires Rest(c) && Sent(c, cmd, l, [last]) && l.verb in {PASV, EPSV} && last.verb == RETR
    requires cmd.kind == Get && cmd.sink
    requires c.dtp.link == Up && c.now.device == [] && c.now.wire == []
    ensures CanLose(c, c.past.early)
  {
    var e := Delivery([Address(l)]);
    var d := Step(c, e);
    assert [last][1..] == [];
    Connects(c, cmd, l, [last], Address(l));
    StepRest(c, e);
    StepRest(d, DataOpens);
    RetrLoses(Step(d, DataOpens), cmd, last);
    LosesBefore(d, DataOpens, c.past.early);
    LosesBefore(c, e, c.past.early);
  }

  lemma SizedLoses(c: Client, cmd: Cmd)
    requires Rest(c) && SinkGet(cmd) && Sent(c, cmd, cmd.raw[1], [cmd.raw[2], cmd.raw[3]])
    requires c.dtp.link == Up && c.now.device == [] && c.now.wire == []
    ensures CanLose(c, c.past.early)
  {
    var raw := cmd.raw;
    assert [raw[2], raw[3]][1..] == [raw[3]];
    var e := Delivery([Reply(213, false, Some(raw[1]))]);
    GoesOn(c, cmd, raw[1], [raw[2], raw[3]], 213);
    StepRest(c, e);
    AskedLoses(Step(c, e), cmd, Written(c, raw[2]), raw[3]);
    LosesBefore(c, e, c.past.early);
  }

  /** A download has begun with a data connection left over: its own takes the place of the old one,
      and its device is forgotten. */
  lemma BegunLoses(c: Client, cmd: Cmd)
    requires Rest(c) && SinkGet(cmd) && Sent(c, cmd, cmd.raw[0], cmd.raw[1..])
    requires c.dtp.link == Up && c.now.device == [] && c.now.wire == []
    ensures CanLose(c, c.past.early)
  {
    var raw := cmd.raw;
    assert raw[1..][1..] == [raw[2], raw[3]];
    var e := Delivery([Reply(200, false, Some(raw[0]))]);
    GoesOn(c, cmd, raw[0], raw[1..], 200);
    StepRest(c, e);
    SizedLoses(Step(c, e), cmd);
    LosesBefore(c, e, c.past.early);
  }

  // ---------------------------------------------------------------- queues that lead to one

  /** Lines that the server may accept without touching a data connection; only a user's raw
      command can ask for an address without opening one. */
  predicate Harmless(kind: Kind, l: Line) {
    l.verb !in {PORT, EPRT, RETR, LIST, STOR} && (kind != RawCommand ==> l.verb !in {PASV, EPSV})
  }

  predicate HarmlessKind(k: Kind) { k in {Login, Simple, RawCommand} }

  /** Working off the queue, with what the slots add to it, leads to a download into a device or to
      its end, and nothing before touches the data connection; `up` says that the command
      connection is there. A Close takes it down, and connectToHost is of use only then. */
  predicate Leads(cmds: seq<Cmd>, plan: seq<seq<Request>>, id: nat, up: bool)
    decreases |cmds| + Planned(plan)
  {
    cmds == [] ||
    (Scripted(cmds[0]) &&
     var more, later, next := cmds[1..] + Number(Q.First(plan), id), Q.Others(plan), id + |Q.First(plan)|;
     match cmds[0].kind
     case Get => up && SinkGet(cmds[0])
     case SetTransferMode => Leads(more, later, next, up)
     case SetProxy => Leads(more, later, next, up)
     case Close => up && Leads(more, later, next, false)
     case ConnectToHost => !up && Leads(more, later, next, true)
     case ListDir => false
     case Put => false
     case _ => up && (forall l :: l in cmds[0].raw ==> Harmless(cmds[0].kind, l)) &&
               Leads(more, later, next, true))
  }

  /** The same for what follows the head of the queue. */
  predicate TailLeads(f: Ftp, up: bool)
    requires f.pending != []
  {
    Leads(f.pending[1..] + Number(Q.First(f.plan), f.nextId), Q.Others(f.plan),
          f.nextId + |Q.First(f.plan)|, up)
  }

  // ------------------------------------------------------------------------ states on the way

  /** The old data connection is still up, and nothing else is unusual. */
  ghost predicate Clear(c: Client) {
    && !c.ftp.timer && c.pi.abort == NoAbort && !c.pi.waitConn && !c.pi.waitClose
    && c.net.inbox == [] && c.past.lawful && c.dtp.link == Up
  }

  /** Between two commands. */
  ghost predicate AtGap(c: Client, up: bool) {
    && Clear(c) && !c.ftp.closeWait && c.pi.queue == [] && c.pi.cur == None && c.pi.state == Idle
    && c.net.unanswered == [] && (if up then c.net.ctrl == Up && !c.net.greeting else c.net.ctrl == Down)
  }

  ghost predicate OnLine(c: Client) {
    && Clear(c) && !c.ftp.closeWait && c.ftp.pending != [] && c.pi.state == Waiting && c.pi.cur.Some?
    && c.net.unanswered == [c.pi.cur.value] && c.net.ctrl == Up && !c.net.greeting
  }

  ghost predicate OnHarmless(c: Client) {
    && OnLine(c) && HarmlessKind(c.ftp.pending[0].kind) && TailLeads(c.ftp, true)
    && Harmless(c.ftp.pending[0].kind, c.pi.cur.value)
    && forall l :: l in c.pi.queue ==> Harmless(c.ftp.pending[0].kind, l)
  }

  ghost predicate OnGet(c: Client) {
    && OnLine(c) && SinkGet(c.ftp.pending[0])
    && c.pi.cur == Some(c.ftp.pending[0].raw[0]) && c.pi.queue == c.ftp.pending[0].raw[1..]
    && c.now.device == [] && c.now.wire == []
  }

  ghost predicate OnQuit(c: Client) {
    && OnLine(c) && c.ftp.pending[0].kind == Close && c.pi.queue == [] && c.pi.cur.value.verb == QUIT
    && c.ftp.state != Unconnected && TailLeads(c.ftp, false)
  }

  ghost predicate Calling(c: Client) {
    && Clear(c) && !c.ftp.closeWait && HeadIs(c, ConnectToHost) && c.net.ctrl == Opening
    && c.pi.queue == [] && c.pi.cur == None && c.net.unanswered == []
  }

  ghost predicate Dialing(c: Client) { Calling(c) && TailLeads(c.ftp, true) }

  /** On the way to a download. */
  ghost predicate OnWay(c: Client) {
    if c.ftp.pending == [] then AtGap(c, true) || AtGap(c, false)
    else OnHarmless(c) || OnGet(c) || OnQuit(c) || Dialing(c)
  }

  // ----------------------------------------------------------------- the next command starts

  /** What the start of a command keeps. */
  ghost predicate Keeping(g: Client, d: Client) {
    && SameRecord(g.past, d.past) && Work(d) <= Work(g) && d.pi.busy == g.pi.busy
  }

  /** What the head of such a queue is, and where its tail leads. */
  lemma HeadLeads(f: Ftp, up: bool)
    requires f.pending != [] && Leads(f.pending, f.plan, f.nextId, up)
    ensures var cmd := f.pending[0];
            && Scripted(cmd)
            && (Q.Instant(cmd.kind) ==> TailLeads(f, up))
            && (cmd.kind == Get ==> up && SinkGet(cmd))
            && (cmd.kind == Close ==> up && TailLeads(f, false))
            && (cmd.kind == ConnectToHost ==> !up && TailLeads(f, true))
            && cmd.kind !in {ListDir, Put}
            && (HarmlessKind(cmd.kind) ==>
                  up && TailLeads(f, true) && forall l :: l in cmd.raw ==> Harmless(cmd.kind, l))
  {
  }

  lemma TailSame(f: Ftp, g: Ftp, up: bool)
    requires f.pending != [] && g.pending != [] && g.pending[1..] == f.pending[1..]
    requires g.plan == f.plan && g.nextId == f.nextId && TailLeads(f, up)
    ensures TailLeads(g, up)
  {
  }

  lemma StartHarmless(g: Client)
    requires AtGap(g, true) && g.ftp.pending != [] && HarmlessKind(g.ftp.pending[0].kind)
    requires Scripted(g.ftp.pending[0]) && TailLeads(g.ftp, true)
    requires forall l :: l in g.ftp.pending[0].raw ==> Harmless(g.ftp.pending[0].kind, l)
    ensures OnHarmless(StartNextCommand(g)) && Keeping(g, StartNextCommand(g))
  {
    var h := Head(g);
    HeadHarmless(g);
    assert h.raw[0] in h.raw;
    HeadBegins(g);
    TailSame(g.ftp, StartNextCommand(g).ftp, true);
  }

  /** The proxy does not change what kind of lines a command has. */
  lemma HeadHarmless(g: Client)
    requires g.ftp.pending != [] && HarmlessKind(g.ftp.pending[0].kind) && Scripted(g.ftp.pending[0])
    requires forall l :: l in g.ftp.pending[0].raw ==> Harmless(g.ftp.pending[0].kind, l)
    ensures Head(g).raw != [] && Head(g).kind == g.ftp.pending[0].kind
    ensures forall l :: l in Head(g).raw ==> Harmless(Head(g).kind, l)
  {
    var cmd := g.ftp.pending[0];
    forall l | l in Head(g).raw ensures Harmless(cmd.kind, l) {
      assert cmd.raw[0] in cmd.raw;
      assert l == Head(g).raw[0] || l in cmd.raw[1..];
    }
  }

  lemma StartGet(g: Client)
    requires AtGap(g, true) && g.ftp.pending != [] && SinkGet(g.ftp.pending[0])
    ensures OnGet(StartNextCommand(g)) && Keeping(g, StartNextCommand(g))
  {
    HeadBegins(g);
  }

  lemma StartQuit(g: Client)
    requires AtGap(g, true) && g.ftp.pending != [] && g.ftp.pending[0].kind == Close
    requires Scripted(g.ftp.pending[0]) && TailLeads(g.ftp, false)
    ensures OnQuit(StartNextCommand(g)) && Keeping(g, StartNextCommand(g))
  {
    HeadBegins(g);
    TailSame(g.ftp, StartNextCommand(g).ftp, false);
  }

  lemma DialStarts(g: Client)
    requires HeadIs(g, ConnectToHost) && g.net.ctrl == Down && !g.ftp.closeWait
    ensures var d := StartNextCommand(g);
            && d.ftp.pending == g.ftp.pending && d.ftp.plan == g.ftp.plan && d.ftp.nextId == g.ftp.nextId
            && d.ftp.timer == g.ftp.timer && !d.ftp.closeWait
            && d.pi == g.pi && d.dtp == g.dtp && d.net == g.net.(ctrl := Opening)
            && SameRecord(g.past, d.past)
  {
    var q := Prepared(Begun(g));
    assert [g.ftp.pending[0]] + g.ftp.pending[1..] == g.ftp.pending;
    assert PiConnectState(q, HostLookup) == q.(ftp := q.ftp.(state := HostLookup));
    assert StartNextCommand(g) == Dispatch(q) == Dial(q);
  }

  lemma StartDial(g: Client)
    requires AtGap(g, false) && HeadIs(g, ConnectToHost) && TailLeads(g.ftp, true)
    ensures Dialing(StartNextCommand(g)) && Keeping(g, StartNextCommand(g))
  {
    DialStarts(g);
    TailSame(g.ftp, StartNextCommand(g).ftp, true);
  }

  /** Commands that need no server are skipped. */
  lemma {:induction false} StartsOnWay(g: Client, up: bool)
    requires AtGap(g, up) && Leads(g.ftp.pending, g.ftp.plan, g.ftp.nextId, up)
    ensures OnWay(Proceeds(g)) && Keeping(g, Proceeds(g))
    ensures up ==> Proceeds(g).net.ctrl == Up
    decreases Work(g)
  {
    if g.ftp.pending != [] {
      var k := g.ftp.pending[0].kind;
      HeadLeads(g.ftp, up);
      if Q.Instant(k) {
        var q := Q.AfterHead(g);
        Q.HeadStarts(g);
        InstantGap(g, up);
        StartsOnWay(q, up);
      } else if k == Get {
        StartGet(g);
      } else if k == Close {
        StartQuit(g);
      } else if k == ConnectToHost {
        StartDial(g);
      } else {
        StartHarmless(g);
      }
    }
  }

  lemma InstantGap(g: Client, up: bool)
    requires AtGap(g, up) && g.ftp.pending != [] && Q.Instant(g.ftp.pending[0].kind)
    requires TailLeads(g.ftp, up)
    ensures var q := Q.AfterHead(g);
            && AtGap(q, up) && Leads(q.ftp.pending, q.ftp.plan, q.ftp.nextId, up)
            && Keeping(g, q) && Work(q) < Work(g)
  {
    var p := Q.Ready(g);
    Q.ReadyQueue(g);
    Q.PoppedTail(p, false, AccountOf(p));
  }

  // ------------------------------------------------------------------ from one to the next

  /** The way goes on: nothing is half done, and the measure is smaller. */
  ghost predicate Nearer(c: Client, d: Client) {
    && OnWay(d) && !d.pi.busy && d.past.early == c.past.early
    && (Work(d) < Work(c) || (Work(d) == Work(c) && |d.pi.queue| < |c.pi.queue|))
  }

  lemma OnWayIdle(d: Client)
    requires OnWay(d)
    ensures OnWay(d.(pi := d.pi.(busy := false)))
  {
  }

  /** The server agrees to a line. */
  function Agreed(l: Line): Reply {
    Reply(if l.verb == PASV then 227 else if l.verb == EPSV then 229 else 200, true, Some(l))
  }

  lemma AgreedLawful(c: Client, l: Line)
    requires l.verb !in {RETR, LIST, STOR}
    ensures StrictReply(Agreed(l)) && Timely(c.dtp.link, Agreed(l)) && !Holds(c, Agreed(l))
  {
  }

  lemma OnLineSent(c: Client)
    requires OnLine(c) && !c.pi.busy
    ensures Sent(c, c.ftp.pending[0], c.pi.cur.value, c.pi.queue)
  {
  }

  /** The next line of the command is written. */
  lemma HarmlessGoes(c: Client)
    requires OnHarmless(c) && !c.pi.busy && c.pi.queue != []
    ensures var e := Delivery([Agreed(c.pi.cur.value)]); Enabled(c, e) && Nearer(c, Step(c, e))
  {
    var cmd, l := c.ftp.pending[0], c.pi.cur.value;
    var r := Agreed(l);
    OnLineSent(c);
    AgreedLawful(c, l);
    OneReply(c, l, r);
    EnteredState(c, cmd, l, c.pi.queue, r);
    HarmlessReacts(Entered(c, r), r, c);
  }

  lemma HarmlessReacts(s: Client, r: Reply, c: Client)
    requires OnHarmless(c) && s.ftp == c.ftp && s.dtp == c.dtp && s.net == c.net.(unanswered := [])
    requires s.pi == c.pi.(state := Success, busy := true) && c.pi.queue != []
    requires s.past.lawful && s.past.early == c.past.early && r == Agreed(c.pi.cur.value)
    ensures var d := React(SpecialAction(s, r)); Nearer(c, d.(pi := d.pi.(busy := false)))
  {
    assert SpecialAction(s, r) == s;
    var t := s.(pi := s.pi.(state := Idle));
    HarmlessSends(t);
    assert React(s) == Send(t, FirstWritten(t, t.pi.queue));
    SentHarmless(t, FirstWritten(t, t.pi.queue), c);
  }

  lemma HarmlessSends(t: Client)
    requires t.ftp.pending != [] && t.pi.queue != [] && !t.pi.waitConn
    requires forall l :: l in t.pi.queue ==> Harmless(t.ftp.pending[0].kind, l)
    ensures StartNextCmd(t) == Send(t, FirstWritten(t, t.pi.queue))
    ensures Harmless(t.ftp.pending[0].kind, FirstWritten(t, t.pi.queue))
  {
    assert t.pi.queue[0] in t.pi.queue;
  }

  lemma SentHarmless(t: Client, l: Line, c: Client)
    requires OnHarmless(c) && t.ftp == c.ftp && t.dtp == c.dtp && t.net == c.net.(unanswered := [])
    requires t.pi == c.pi.(state := Idle, busy := true) && c.pi.queue != []
    requires t.past.lawful && t.past.early == c.past.early && Harmless(c.ftp.pending[0].kind, l)
    ensures var d := Send(t, l); Nearer(c, d.(pi := d.pi.(busy := false)))
  {
    assert forall x :: x in t.pi.queue[1..] ==> x in c.pi.queue;
  }

  /** The head has finished and the next command starts. */
  lemma NextOnWay(c: Client, t: Client, up: bool)
    requires t.ftp.pending != [] && TailLeads(t.ftp, up) && Work(t) == Work(c)
    requires Clear(t) && !t.ftp.closeWait && t.pi.queue == [] && t.pi.cur == None && t.pi.state == Idle
    requires t.net.unanswered == [] && t.past.early == c.past.early
    requires if up then t.net.ctrl == Up && !t.net.greeting else t.net.ctrl == Down
    ensures var v := Proceeds(Over(t));
            && OnWay(v) && Nearer(c, v.(pi := v.pi.(busy := false))) && v.pi.busy == t.pi.busy
            && (up ==> v.net.ctrl == Up)
  {
    var g := Over(t);
    Q.PoppedTail(t, false, AccountOf(t));
    StartsOnWay(g, up);
    OnWayIdle(Proceeds(g));
  }

  lemma HarmlessEnds(c: Client)
    requires OnHarmless(c) && !c.pi.busy && c.pi.queue == []
    ensures var e := Delivery([Agreed(c.pi.cur.value)]); Enabled(c, e) && Nearer(c, Step(c, e))
  {
    var cmd, l := c.ftp.pending[0], c.pi.cur.value;
    OnLineSent(c);
    AgreedLawful(c, l);
    HeadEnds(c, cmd, l, Agreed(l));
    NextOnWay(c, AllAnswered(c, Agreed(l)), true);
  }

  /** QUIT is accepted: Close waits for the connection to go down. */
  lemma QuitWaits(c: Client)
    requires OnQuit(c) && !c.pi.busy
    ensures var e := Delivery([Agreed(c.pi.cur.value)]);
            var d := Step(c, e);
            && Enabled(c, e) && d.ftp == c.ftp.(closeWait := true) && d.dtp == c.dtp
            && d.pi == c.pi.(state := Idle, cur := None) && d.net == c.net.(unanswered := [])
            && d.past.lawful && d.past.early == c.past.early
  {
    var cmd, l := c.ftp.pending[0], c.pi.cur.value;
    var r := Agreed(l);
    OnLineSent(c);
    AgreedLawful(c, l);
    OneReply(c, l, r);
    EnteredState(c, cmd, l, [], r);
    QuitReacts(Entered(c, r), r);
  }

  lemma QuitReacts(s: Client, r: Reply)
    requires s.pi.state == Success && !s.pi.waitConn && s.pi.queue == [] && r.code == 200
    requires HeadIs(s, Close) && s.ftp.state != Unconnected
    ensures var t := s.(pi := s.pi.(state := Idle, cur := None));
            React(SpecialAction(s, r)) == t.(ftp := t.ftp.(closeWait := true))
  {
    assert SpecialAction(s, r) == s;
    assert React(s) == PiFinished(s.(pi := s.pi.(state := Idle, cur := None)));
  }

  /** The connection goes down, and Close has finished. */
  lemma QuitEnds(c: Client, d: Client)
    requires OnQuit(c) && d.ftp == c.ftp.(closeWait := true) && d.dtp == c.dtp
    requires d.pi == c.pi.(state := Idle, cur := None) && !d.pi.busy && d.net == c.net.(unanswered := [])
    requires d.past.lawful && d.past.early == c.past.early
    ensures Enabled(d, ControlCloses) && Nearer(c, Step(d, ControlCloses))
  {
    var l := Lost(d);
    assert l.net.unanswered == [];
    var t := l.(net := l.net.(ctrl := Down, inbox := []),
                ftp := d.ftp.(state := Unconnected, closeWait := false));
    assert Step(d, ControlCloses) == PiFinished(t) == Proceeds(Over(t));
    TailSame(c.ftp, t.ftp, false);
    NextOnWay(c, t, false);
    var v := Proceeds(Over(t));
    assert v.(pi := v.pi.(busy := false)) == v;
  }

  /** The greeting has been read: the state in which connectToHost is about to finish. */
  function Received(c: Client): Client {
    var a := Answering(ControlUp(c), Reply(220, false, None));
    Logged(a, Served(None, a.pi.cur, 220)).(pi := a.pi.(state := Idle))
  }

  lemma ReceivedState(c: Client)
    requires Calling(c) && !c.pi.busy
    ensures var t := Received(c);
            && t.ftp == c.ftp.(state := Connected) && t.dtp == c.dtp
            && t.pi == c.pi.(state := Idle, busy := true)
            && t.net == c.net.(ctrl := Up, greeting := false)
            && t.past.lawful && t.past.early == c.past.early
  {
    var r := Reply(220, false, None);
    TakenRecord(ControlUp(c), r);
    assert Final([r][0].code);
  }

  /** Nothing more follows from the greeting. */
  ghost predicate Quiescent(v: Client) {
    v.pi.state == Waiting ||
    (v.ftp.pending == [] && v.pi.state == Idle && v.pi.queue == [] && v.pi.cur == None && !v.pi.waitConn)
  }

  lemma QuiescentReacts(v: Client)
    requires Quiescent(v)
    ensures React(v) == v
  {
    if v.pi.state == Idle {
      var u := v.(pi := v.pi.(cur := None));
      assert u == v && StartNextCmd(v) == PiFinished(u) == u;
    }
  }

  /** The connection opens and the server greets. */
  lemma DialSteps(c: Client)
    requires Calling(c) && !c.pi.busy && Quiescent(Proceeds(Over(Received(c))))
    ensures var e := Delivery([Reply(220, false, None)]);
            var d := Step(c, ControlOpens);
            var v := Proceeds(Over(Received(c)));
            && Enabled(c, ControlOpens) && Enabled(d, e)
            && Step(d, e) == v.(pi := v.pi.(busy := false))
  {
    var r := Reply(220, false, None);
    var d := ControlUp(c);
    var t := Taken(d, [r]);
    assert t.net.inbox == [r] && [r][0] == r;
    var s := Answering(d, r);
    ReadLast(t, s, r);
    ReceivedState(c);
    var v := Proceeds(Over(Received(c)));
    QuiescentReacts(v);
    GreetedServes(s, r);
  }

  lemma GreetedServes(s: Client, r: Reply)
    requires r == Reply(220, false, None) && HeadIs(s, ConnectToHost)
    requires s.pi.state == Begin && s.pi.abort == NoAbort
    ensures var u := Logged(s, Served(None, s.pi.cur, 220)).(pi := s.pi.(state := Idle));
            ProcessReply(s, r) == (React(Proceeds(Over(u))), true)
  {
    var u := Logged(s, Served(None, s.pi.cur, 220)).(pi := s.pi.(state := Idle));
    var v := Proceeds(Over(u));
    assert PiFinished(u) == v && SpecialAction(v, r) == v;
  }

  lemma DialEnds(c: Client)
    requires Dialing(c) && !c.pi.busy
    ensures var e := Delivery([Reply(220, false, None)]);
            var d := Step(c, ControlOpens);
            Enabled(c, ControlOpens) && Enabled(d, e) && Nearer(c, Step(d, e))
  {
    var t := Received(c);
    ReceivedState(c);
    TailSame(c.ftp, t.ftp, true);
    NextOnWay(c, t, true);
    OnWayQuiescent(Proceeds(Over(t)));
    DialSteps(c);
  }

  lemma OnWayQuiescent(v: Client)
    requires OnWay(v) && v.net.ctrl == Up
    ensures Quiescent(v)
  {
  }

  // ------------------------------------------------------------------------ the end of the way

  lemma GetOnLine(c: Client)
    requires Rest(c) && OnGet(c) && !c.pi.busy
    ensures CanLose(c, c.past.early)
  {
    OnLineSent(c);
    BegunLoses(c, c.ftp.pending[0]);
  }

  function Download(): Request {
    Request(Get, [Line(TYPE, "I"), Line(SIZE, "f"), Line(PASV, ""), Line(RETR, "f")], true)
  }

  /** The queue is empty: the user asks for a download. */
  lemma DownloadStarts(c: Client)
    requires AtGap(c, true) && c.ftp.pending == [] && !c.pi.busy
    ensures var d := Step(c, UserAdds(Download()));
            && Enabled(c, UserAdds(Download())) && Enabled(d, Fire)
            && OnGet(Step(d, Fire)) && SameRecord(c.past, Step(d, Fire).past) && !Step(d, Fire).pi.busy
  {
    var d := Step(c, UserAdds(Download()));
    assert d.ftp.pending == [Cmd(c.ftp.nextId, Get, Download().raw, true)];
    StartGet(d.(ftp := d.ftp.(timer := false)));
  }

  lemma EmptyLoses(c: Client)
    requires Rest(c) && AtGap(c, true) && c.ftp.pending == [] && !c.pi.busy
    ensures CanLose(c, c.past.early)
  {
    var e := UserAdds(Download());
    var d := Step(c, e);
    DownloadStarts(c);
    StepRest(c, e);
    StepRest(d, Fire);
    GetOnLine(Step(d, Fire));
    LosesBefore(d, Fire, c.past.early);
    LosesBefore(c, e, c.past.early);
  }

  /** connectToHost is under way and a download behind it. */
  lemma CalledLoses(c: Client)
    requires Rest(c) && Calling(c) && !c.pi.busy && |c.ftp.pending| >= 2 && SinkGet(c.ftp.pending[1])
    ensures CanLose(c, c.past.early)
  {
    var t := Received(c);
    var g := Over(t);
    ReceivedState(c);
    Q.PoppedTail(t, false, AccountOf(t));
    assert g.ftp.pending[0] == c.ftp.pending[1];
    StartGet(g);
    DialSteps(c);
    var e := Delivery([Reply(220, false, None)]);
    var d := Step(c, ControlOpens);
    StepRest(c, ControlOpens);
    StepRest(d, e);
    GetOnLine(Step(d, e));
    LosesBefore(d, e, c.past.early);
    LosesBefore(c, ControlOpens, c.past.early);
  }

  /** The queue is empty and the connection closed: the user connects and asks for a download. */
  lemma ClosedLoses(c: Client)
    requires Rest(c) && AtGap(c, false) && c.ftp.pending == [] && !c.pi.busy
    ensures CanLose(c, c.past.early)
  {
    var e, f := UserAdds(Connect()), UserAdds(Download());
    var c1 := Step(c, e);
    var c2 := Step(c1, f);
    StepRest(c, e);
    StepRest(c1, f);
    AskedClosed(c);
    var g := c2.(ftp := c2.ftp.(timer := false));
    DialStarts(g);
    StepRest(c2, Fire);
    CalledLoses(Step(c2, Fire));
    LosesBefore(c2, Fire, c.past.early);
    LosesBefore(c1, f, c.past.early);
    LosesBefore(c, e, c.past.early);
  }

  lemma AskedClosed(c: Client)
    requires AtGap(c, false) && c.ftp.pending == []
    ensures var c1 := Step(c, UserAdds(Connect()));
            var c2 := Step(c1, UserAdds(Download()));
            && Enabled(c, UserAdds(Connect())) && Enabled(c1, UserAdds(Download())) && Enabled(c2, Fire)
            && AtGap(c2.(ftp := c2.ftp.(timer := false)), false) && |c2.ftp.pending| == 2
            && HeadIs(c2, ConnectToHost) && SinkGet(c2.ftp.pending[1])
            && c2.past.early == c.past.early && c2.pi.busy == c.pi.busy
  {
  }

  /** Whatever is on the way to a download leads to one whose data are lost. */
  lemma {:induction false} OnWayLoses(c: Client)
    requires Rest(c) && OnWay(c) && !c.pi.busy
    ensures CanLose(c, c.past.early)
    decreases Work(c), |c.pi.queue|
  {
    if c.ftp.pending == [] {
      if AtGap(c, true) {
        EmptyLoses(c);
      } else {
        ClosedLoses(c);
      }
    } else if OnGet(c) {
      GetOnLine(c);
    } else if OnHarmless(c) {
      var e := Delivery([Agreed(c.pi.cur.value)]);
      if c.pi.queue == [] {
        HarmlessEnds(c);
      } else {
        HarmlessGoes(c);
      }
      StepRest(c, e);
      OnWayLoses(Step(c, e));
      LosesBefore(c, e, c.past.early);
    } else if OnQuit(c) {
      QuitLoses(c);
    } else {
      DialLoses(c);
    }
  }

  lemma {:induction false} QuitLoses(c: Client)
    requires Rest(c) && OnQuit(c) && !c.pi.busy && c.ftp.pending != []
    ensures CanLose(c, c.past.early)
    decreases Work(c), |c.pi.queue|, 0
  {
    var e := Delivery([Agreed(c.pi.cur.value)]);
    var d := Step(c, e);
    QuitWaits(c);
    QuitEnds(c, d);
    StepRest(c, e);
    StepRest(d, ControlCloses);
    OnWayLoses(Step(d, ControlCloses));
    LosesBefore(d, ControlCloses, c.past.early);
    LosesBefore(c, e, c.past.early);
  }

  lemma {:induction false} DialLoses(c: Client)
    requires Rest(c) && Dialing(c) && !c.pi.busy
    ensures CanLose(c, c.past.early)
    decreases Work(c), |c.pi.queue|, 0
  {
    var e := Delivery([Reply(220, false, None)]);
    var d := Step(c, ControlOpens);
    DialEnds(c);
    StepRest(c, ControlOpens);
    StepRest(d, e);
    OnWayLoses(Step(d, e));
    LosesBefore(d, e, c.past.early);
    LosesBefore(c, ControlOpens, c.past.early);
  }
}
