/**
 Single steps of a session, from the first connection on: the building blocks of the runs that
 show where a property stops to hold. Whatever waits in the queue behind the command stays there.
 */
module FtpSession {
  import opened Text
  import opened FtpTypes
  import opened FtpSpec
  import opened FtpRun
  import opened FtpControl
  import opened FtpLockstep
  import opened FtpScript
  import opened FtpTransfer

  /** Connected, with nothing to do. */
  ghost predicate AtRest(c: Client) {
    && c.ftp.pending == [] && !c.ftp.timer && !c.ftp.closeWait
    && c.pi.state == Idle && c.pi.abort == NoAbort && c.pi.queue == [] && c.pi.cur == None
    && !c.pi.waitConn && !c.pi.waitClose && !c.pi.busy
    && c.net.ctrl == Up && c.net.inbox == [] && !c.net.greeting && c.net.unanswered == []
    && c.past.lawful
  }

  /** The command at the head has written `l` and awaits its reply; `rest` is still to write. */
  ghost predicate Sent(c: Client, cmd: Cmd, l: Line, rest: seq<Line>) {
    && c.ftp.pending != [] && c.ftp.pending[0] == cmd && !c.ftp.timer && !c.ftp.closeWait
    && c.pi.state == Waiting && c.pi.abort == NoAbort && c.pi.queue == rest && c.pi.cur == Some(l)
    && !c.pi.waitConn && !c.pi.waitClose && !c.pi.busy
    && c.net.ctrl == Up && c.net.inbox == [] && !c.net.greeting && c.net.unanswered == [l]
    && c.past.lawful
  }

  /** The history of the data stays as it is. */
  predicate SameData(c: Client, d: Client) {
    && d.dtp == c.dtp && d.now.device == c.now.device && d.now.wire == c.now.wire
    && d.past.early == c.past.early && d.past.trace == c.past.trace
  }

  /** The state in which the only reply of a delivery is served. */
  function Answering(c: Client, r: Reply): Client {
    var t := Taken(c, [r]);
    t.(net := t.net.(inbox := []), pi := t.pi.(busy := true))
  }

  lemma OneReply(c: Client, l: Line, r: Reply)
    requires !c.pi.busy && !c.pi.waitClose && c.pi.abort == NoAbort && !Holds(c, r)
    requires c.net.ctrl == Up && c.net.inbox == [] && !c.net.greeting && c.net.unanswered == [l]
    requires r.cause == Some(l) && Final(r.code) && 100 <= r.code < 600
    ensures Enabled(c, Delivery([r]))
    ensures Answering(c, r).net == c.net.(unanswered := [])
    ensures var u := Serve(Answering(c, r), r);
            Step(c, Delivery([r])) == u.(pi := u.pi.(busy := false))
  {
    var t := Taken(c, [r]);
    assert [r][1..] == [] && [l][1..] == [];
    assert InOrder([l], [r]) && InOrder([], [r][1..]);
    assert Left([l], [r]) == Left([], [r][1..]) == [];
    assert t.net.inbox == [r];
    ReadLast(t, Answering(c, r), r);
  }

  lemma TakenRecord(c: Client, r: Reply)
    requires c.past.lawful && StrictReply(r)
    ensures Taken(c, [r]).past.lawful
    ensures Taken(c, [r]).past.early == c.past.early + (if Timely(c.dtp.link, r) then 0 else 1)
  {
    assert EndsEarly(c.dtp.link, [r]) <==> !Timely(c.dtp.link, r) by {
      assert [r][0] == r;
    }
  }

  /** The reply is entered in the books and nothing has followed from it yet. */
  function Entered(c: Client, r: Reply): Client {
    var s := Logged(Answering(c, r), Served(r.cause, c.pi.cur, r.code));
    Answered(s, r.code)
  }

  /** What entering changes. */
  ghost predicate Enters(c: Client, s: Client) {
    && s.ftp == c.ftp && s.dtp == c.dtp && s.net == c.net.(unanswered := [])
    && s.now.device == c.now.device && s.now.wire == c.now.wire && s.now.aborted == c.now.aborted
    && s.past.trace == c.past.trace && s.past.lawful
  }

  lemma EnteredState(c: Client, cmd: Cmd, l: Line, rest: seq<Line>, r: Reply)
    requires Sent(c, cmd, l, rest) && r.cause == Some(l) && StrictReply(r) && !Holds(c, r)
    requires Final(r.code) && 100 <= r.code < 600
    ensures var s := Entered(c, r);
            && Enters(c, s) && s.pi == c.pi.(state := NextState(r.code), busy := true)
            && s.past.early == c.past.early + (if Timely(c.dtp.link, r) then 0 else 1)
            && Serve(Answering(c, r), r) == React(SpecialAction(s, r))
  {
    OneReply(c, l, r);
    TakenRecord(c, r);
  }

  function PassiveLine(c: Client): Line {
    if c.net.ip6 && c.pi.extended then Line(EPSV, "") else Line(PASV, "")
  }

  /** The line that a queued one is written as, in passive mode. */
  function Written(c: Client, l: Line): Line { if l.verb == PASV then PassiveLine(c) else l }

  predicate Easy(l: Line) { l.verb in {TYPE, SIZE, LIST, RETR, STOR} || l == Line(PASV, "") }

  lemma EasySend(t: Client)
    requires t.pi.queue != [] && Easy(t.pi.queue[0])
    ensures SendFirst(t) == Send(t, Written(t, t.pi.queue[0]))
  {
  }

  /** The head of the queue as it is started. */
  function Head(c: Client): Cmd
    requires c.ftp.pending != []
  {
    ThroughProxy(c.ftp, c.ftp.pending[0])
  }

  lemma BegunHead(d: Client)
    requires d.ftp.pending != [] && RawKind(d.ftp.pending[0].kind)
    ensures var p := Prepared(Begun(d));
            && p.ftp == d.ftp.(pending := [Head(d)] + d.ftp.pending[1..],
                               state := if Head(d).kind == Close then Closing else d.ftp.state)
            && p.pi == d.pi && p.net == d.net && p.dtp.link == d.dtp.link
            && p.now == Now([], false, [], [], false)
            && p.past == d.past.(trace := d.past.trace + [Started(Head(d).id)])
  {
  }

  /** The first line of a script as it is written. */
  function FirstWritten(c: Client, raw: seq<Line>): Line
    requires raw != []
  {
    if raw[0].verb == PASV && c.net.ip6 && c.pi.extended then Line(EPSV, "") else raw[0]
  }

  /** The head of the queue is started and its first line written. */
  lemma HeadBegins(d: Client)
    requires d.ftp.pending != [] && RawKind(d.ftp.pending[0].kind)
    requires Head(d).raw != [] && Head(d).raw[0].verb != PORT
    requires d.pi.queue == [] && d.net.ctrl == Up && d.pi.state == Idle && !d.pi.waitConn
    ensures var e := StartNextCommand(d);
            var l := FirstWritten(d, Head(d).raw);
            && e.ftp == d.ftp.(pending := [Head(d)] + d.ftp.pending[1..],
                               state := if Head(d).kind == Close then Closing else d.ftp.state)
            && e.dtp.link == d.dtp.link
            && e.pi == d.pi.(cur := Some(l), queue := Head(d).raw[1..], state := Waiting)
            && e.net == d.net.(unanswered := d.net.unanswered + [l])
            && e.now == Now([Exchange(l, 0)], false, [], [], false)
            && e.past == d.past.(trace := d.past.trace + [Started(Head(d).id)])
  {
    BegunHead(d);
    var raw := Head(d).raw;
    var q := Prepared(Begun(d));
    var p := q.(pi := d.pi.(queue := raw));
    assert StartNextCommand(d) == Dispatch(q) == SendCommands(q, raw) == StartNextCmd(p) == SendFirst(p);
    assert SendFirst(p) == Send(p, FirstWritten(d, raw));
  }

  lemma Issued(d: Client, cmd: Cmd)
    requires d.ftp.pending == [cmd] && TransferKind(cmd.kind) && !d.ftp.timer
    requires Shape(Request(cmd.kind, cmd.raw, cmd.sink))
    requires d.pi.queue == [] && d.net.ctrl == Up && d.pi.state == Idle && !d.pi.waitConn
    ensures var e := StartNextCommand(d);
            && e.ftp == d.ftp && e.dtp.link == d.dtp.link
            && e.pi == d.pi.(cur := Some(cmd.raw[0]), queue := cmd.raw[1..], state := Waiting)
            && e.net == d.net.(unanswered := d.net.unanswered + [cmd.raw[0]])
            && e.now == Now([Exchange(cmd.raw[0], 0)], false, [], [], false)
            && e.past == d.past.(trace := d.past.trace + [Started(cmd.id)])
  {
    HeadBegins(d);
    assert [cmd] + [cmd][1..] == [cmd];
  }

  /** A transfer is enqueued and its first line written. */
  lemma Issue(c: Client, r: Request)
    requires AtRest(c) && Shape(r) && TransferKind(r.kind) && PassiveRequest(r)
    ensures var d := Step(c, UserAdds(r));
            var e := Step(d, Fire);
            && Enabled(c, UserAdds(r)) && Enabled(d, Fire)
            && Sent(e, Cmd(c.ftp.nextId, r.kind, r.raw, r.sink), r.raw[0], r.raw[1..])
            && e.ftp.pending == [Cmd(c.ftp.nextId, r.kind, r.raw, r.sink)] && e.ftp.plan == c.ftp.plan
            && e.dtp.link == c.dtp.link && e.now.device == [] && e.now.wire == []
            && e.past.early == c.past.early
  {
    var cmd := Cmd(c.ftp.nextId, r.kind, r.raw, r.sink);
    var d := Step(c, UserAdds(r));
    assert d.ftp.pending == [cmd];
    Issued(d.(ftp := d.ftp.(timer := false)), cmd);
  }

  /** An accepted line is followed by the next one. */
  lemma GoesOn(c: Client, cmd: Cmd, l: Line, rest: seq<Line>, code: nat)
    requires Sent(c, cmd, l, rest) && rest != [] && Easy(rest[0])
    requires l.verb in {TYPE, SIZE} && code in {200, 213}
    ensures var d := Step(c, Delivery([Reply(code, false, Some(l))]));
            && Enabled(c, Delivery([Reply(code, false, Some(l))]))
            && Sent(d, cmd, Written(c, rest[0]), rest[1..]) && SameData(c, d) && d.ftp == c.ftp
  {
    var r := Reply(code, false, Some(l));
    OneReply(c, l, r);
    EnteredState(c, cmd, l, rest, r);
    NextReacts(Entered(c, r), r);
    NextSent(Entered(c, r), c, cmd, l, rest);
  }

  lemma NextSent(s: Client, c: Client, cmd: Cmd, l: Line, rest: seq<Line>)
    requires Sent(c, cmd, l, rest) && rest != [] && Enters(c, s) && s.past.early == c.past.early
    requires s.pi == c.pi.(state := Success, busy := true)
    ensures var u := Send(s.(pi := s.pi.(state := Idle)), Written(s, rest[0]));
            var d := u.(pi := u.pi.(busy := false));
            Sent(d, cmd, Written(c, rest[0]), rest[1..]) && SameData(c, d) && d.ftp == c.ftp
  {
  }

  lemma NextReacts(s: Client, r: Reply)
    requires s.pi.state == Success && !s.pi.waitConn && r.code in {200, 213}
    requires s.pi.queue != [] && Easy(s.pi.queue[0])
    ensures React(SpecialAction(s, r)) == Send(s.(pi := s.pi.(state := Idle)), Written(s, s.pi.queue[0]))
  {
    var t := s.(pi := s.pi.(state := Idle));
    assert React(s) == SendFirst(t);
    EasySend(t);
  }

  predicate OpensData(r: Reply, l: Line) {
    r.cause == Some(l) && r.addrOk && r.code == if l.verb == PASV then 227 else 229
  }

  /** An address is given. A connection that was still up is gone, and the device with it. */
  lemma Opens(c: Client, cmd: Cmd, l: Line, rest: seq<Line>, r: Reply)
    requires Sent(c, cmd, l, rest) && TransferKind(cmd.kind) && l.verb in {PASV, EPSV} && OpensData(r, l)
    ensures var d := Step(c, Delivery([r]));
            && Enabled(c, Delivery([r])) && Enters(c.(dtp := d.dtp), d)
            && d.pi == c.pi.(state := Idle, waitConn := true) && d.past.early == c.past.early
            && d.dtp.link == Opening && d.dtp.dev == (c.dtp.dev && c.dtp.link == Down)
  {
    OneReply(c, l, r);
    EnteredState(c, cmd, l, rest, r);
    var t := ConnectData(Entered(c, r));
    assert SpecialAction(Entered(c, r), r) == t;
    assert React(t) == t.(pi := t.pi.(state := Idle));
  }

  /** The data connection comes up: the line that moves the data goes out. */
  lemma Connects(c: Client, cmd: Cmd, l: Line, rest: seq<Line>, r: Reply)
    requires Sent(c, cmd, l, rest) && rest != [] && Easy(rest[0]) && rest[0].verb != PASV
    requires TransferKind(cmd.kind) && l.verb in {PASV, EPSV} && OpensData(r, l)
    ensures var d := Step(c, Delivery([r]));
            var e := Step(d, DataOpens);
            && Enabled(c, Delivery([r])) && Enabled(d, DataOpens)
            && Sent(e, cmd, rest[0], rest[1..]) && e.ftp == c.ftp
            && e.dtp.link == Up && e.dtp.dev == (c.dtp.dev && c.dtp.link == Down)
            && e.now.device == c.now.device && e.now.wire == c.now.wire && e.past.early == c.past.early
  {
    Opens(c, cmd, l, rest, r);
    var d := Step(c, Delivery([r]));
    var u := d.(dtp := d.dtp.(link := Up), pi := d.pi.(waitConn := false), now := d.now.(dataUp := true));
    assert Step(d, DataOpens) == SendFirst(u);
    EasySend(u);
  }

  /** Data comes for a download whose device is gone, and the connection closes. */
  lemma DataPassesBy(c: Client, cmd: Cmd, l: Line, b: byte)
    requires Sent(c, cmd, l, []) && l.verb == RETR && c.dtp.link == Up && !c.dtp.dev
    ensures var d := Step(c, DataComes([b]));
            var e := Step(d, DataCloses);
            && Enabled(c, DataComes([b])) && Enabled(d, DataCloses)
            && Sent(e, cmd, l, []) && e.dtp.link == Down && e.ftp == c.ftp
            && e.now.device == c.now.device && e.now.wire == c.now.wire + [b]
            && e.past.early == c.past.early
  {
  }

  /** The head of the queue has finished: commandFinished was emitted, and its slot has run. */
  function Over(t: Client): Client
    requires t.ftp.pending != []
  {
    Popped(t, false, AccountOf(t))
  }

  /** What follows. */
  function Proceeds(g: Client): Client {
    if g.ftp.pending == [] then Emit(g, Done(false)) else StartNextCommand(g)
  }

  /** The state in which the reply to the last line of the head is dealt with. */
  function AllAnswered(c: Client, r: Reply): Client {
    var s := Entered(c, r);
    s.(pi := s.pi.(state := Idle, cur := None))
  }

  predicate Closes(r: Reply) { r.code / 100 == 2 && r.code != 202 && r.code !in {227, 229, 230} }

  /** The last line is accepted: the command finishes, and the next one starts. */
  lemma HeadEnds(c: Client, cmd: Cmd, l: Line, r: Reply)
    requires Sent(c, cmd, l, []) && r.cause == Some(l) && StrictReply(r) && !Holds(c, r)
    requires (Closes(r) || (cmd.kind == RawCommand && r.code in {227, 229})) && cmd.kind != Close
    ensures Enabled(c, Delivery([r]))
    ensures var d := Proceeds(Over(AllAnswered(c, r)));
            Step(c, Delivery([r])) == d.(pi := d.pi.(busy := false))
    ensures var t := AllAnswered(c, r);
            && t.pi == c.pi.(state := Idle, cur := None, busy := true) && Enters(c, t)
            && t.past.early == c.past.early + (if Timely(c.dtp.link, r) then 0 else 1)
  {
    OneReply(c, l, r);
    EnteredState(c, cmd, l, [], r);
    LastReacts(Entered(c, r), r);
  }

  lemma LastReacts(s: Client, r: Reply)
    requires s.pi.state == Success && !s.pi.waitConn && s.pi.queue == [] && s.ftp.pending != []
    requires (HeadIs(s, RawCommand) || r.code !in {227, 229, 230}) && s.ftp.pending[0].kind != Close
    ensures React(SpecialAction(s, r)) == Proceeds(Over(s.(pi := s.pi.(state := Idle, cur := None))))
  {
    assert SpecialAction(s, r) == s;
    assert React(s) == PiFinished(s.(pi := s.pi.(state := Idle, cur := None)));
  }

  // --------------------------------------------------------------------------- connecting

  function Connect(): Request {
    Request(ConnectToHost, [Line(OTHER, "h"), Line(OTHER, "21")], false)
  }

  /** connectToHost was called and the connection is up; the greeting is awaited. */
  ghost predicate Greeting(c: Client, cmd: Cmd) {
    && c.ftp.pending == [cmd] && cmd.kind == ConnectToHost
    && c.ftp.plan == [] && !c.ftp.timer && !c.ftp.closeWait
    && c.pi.state == Begin && c.pi.abort == NoAbort && c.pi.queue == [] && c.pi.cur == None
    && !c.pi.waitConn && !c.pi.waitClose && !c.pi.busy
    && c.net.ctrl == Up && c.net.inbox == [] && c.net.greeting && c.net.unanswered == []
    && c.dtp.link == Down && Strict(c.past)
  }

  lemma Dials(c: Client)
    requires c == Init(c.net.ip6, c.net.local, [])
    ensures var d := Step(c, UserAdds(Connect()));
            var e := Step(d, Fire);
            var f := Step(e, ControlOpens);
            && Enabled(c, UserAdds(Connect())) && Enabled(d, Fire) && Enabled(e, ControlOpens)
            && Greeting(f, Cmd(1, ConnectToHost, Connect().raw, false))
  {
    var cmd := Cmd(1, ConnectToHost, Connect().raw, false);
    var d := Step(c, UserAdds(Connect()));
    assert d.ftp.pending == [cmd] && [cmd] + [cmd][1..] == [cmd];
    var q := Prepared(Begun(d.(ftp := d.ftp.(timer := false))));
    assert q.ftp.pending == [cmd];
    assert PiConnectState(q, HostLookup) == q.(ftp := q.ftp.(state := HostLookup));
    assert StartNextCommand(d.(ftp := d.ftp.(timer := false))) == Dispatch(q) == Dial(q);
    assert PassiveRequest(Connect());
  }

  lemma Welcomes(c: Client, cmd: Cmd)
    requires Greeting(c, cmd)
    ensures var r := Reply(220, false, None);
            var d := Step(c, Delivery([r]));
            Enabled(c, Delivery([r])) && AtRest(d) && d.ftp.plan == [] && d.dtp == c.dtp && Strict(d.past)
  {
    var r := Reply(220, false, None);
    var t := Taken(c, [r]);
    assert t.net.inbox == [r] && [r][0] == r;
    var s := t.(net := t.net.(inbox := []), pi := t.pi.(busy := true));
    ReadLast(t, s, r);
    Welcomed(s, cmd, r);
    assert !EndsEarly(c.dtp.link, [r]);
  }

  lemma Welcomed(s: Client, cmd: Cmd, r: Reply)
    requires r == Reply(220, false, None) && s.ftp.pending == [cmd] && cmd.kind == ConnectToHost
    requires s.pi.state == Begin && s.pi.abort == NoAbort && s.ftp.plan == [] && s.pi.queue == []
    requires s.pi.cur == None && !s.pi.waitConn
    ensures var (t, done) := ProcessReply(s, r);
            && done && t.ftp == s.ftp.(pending := []) && t.pi == s.pi.(state := Idle)
            && t.net == s.net && t.dtp == s.dtp && SameRecord(s.past, t.past)
  {
    var l := Logged(s, Served(r.cause, s.pi.cur, r.code));
    var u := l.(pi := s.pi.(state := Idle));
    assert [cmd][1..] == [];
    var v := Emit(Popped(u, false, AccountOf(u)), Done(false));
    assert PiFinished(u) == v;
    assert SpecialAction(v, r) == v && StartNextCmd(v) == PiFinished(v.(pi := v.pi.(cur := None)));
    assert v.(pi := v.pi.(cur := None)) == v && PiFinished(v) == v;
  }

  lemma StepThen(c: Client, e: Event, es: seq<Event>)
    requires Enabled(c, e) && Allowed(Step(c, e), es)
    ensures Allowed(c, [e] + es) && Run(c, [e] + es) == Run(Step(c, e), es)
  {
    assert ([e] + es)[0] == e && ([e] + es)[1..] == es;
  }

  lemma OneStep(a: Client, e: Event)
    requires Enabled(a, e)
    ensures Allowed(a, [e]) && Run(a, [e]) == Step(a, e)
  {
    assert [e][1..] == [];
    assert Run(Step(a, e), [e][1..]) == Step(a, e);
  }

  lemma TwoSteps(a: Client, e: Event, f: Event)
    requires Enabled(a, e) && Enabled(Step(a, e), f)
    ensures Allowed(a, [e, f]) && Run(a, [e, f]) == Step(Step(a, e), f)
  {
    OneStep(Step(a, e), f);
    assert [e, f][1..] == [f];
  }

  /** A new object connects and is greeted. */
  function Start(): seq<Event> {
    [UserAdds(Connect())] + ([Fire] + [ControlOpens, Delivery([Reply(220, false, None)])])
  }

  lemma Starts(ip6: bool, local: string)
    ensures var c := Init(ip6, local, []);
            && Allowed(c, Start()) && AtRest(Run(c, Start())) && Run(c, Start()).ftp.plan == []
            && Run(c, Start()).dtp.link == Down && Strict(Run(c, Start()).past)
  {
    var c := Init(ip6, local, []);
    Dials(c);
    var d := Step(Step(c, UserAdds(Connect())), Fire);
    Welcomes(Step(d, ControlOpens), Cmd(1, ConnectToHost, Connect().raw, false));
    TwoSteps(d, ControlOpens, Delivery([Reply(220, false, None)]));
    StepThen(Step(c, UserAdds(Connect())), Fire, [ControlOpens, Delivery([Reply(220, false, None)])]);
    StepThen(c, UserAdds(Connect()), [Fire] + [ControlOpens, Delivery([Reply(220, false, None)])]);
  }
}
