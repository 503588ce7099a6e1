/**
 The engine as functions on the whole state. Signals are plain calls on one thread, so
 `finished` and `error` re-enter the queue, and the queue re-enters the sender, before the
 reply that caused them has been dealt with: the functions below call each other the same way.
 */
module FtpSpec {
  import opened Text
  import opened FtpTypes

  function Planned(plan: seq<seq<Request>>): nat {
    if plan == [] then 0 else |plan[0]| + Planned(plan[1..])
  }

  /** Commands not yet finished, counting those the user's slots are still going to add. */
  function Work(c: Client): nat {
    |c.ftp.pending| + Planned(c.ftp.plan)
  }

  predicate Final(code: nat) { code / 100 != 1 }

  predicate CurIs(pi: Pi, v: Verb) { pi.cur.Some? && pi.cur.value.verb == v }

  predicate HeadIs(c: Client, k: Kind) { c.ftp.pending != [] && c.ftp.pending[0].kind == k }

  function Emit(c: Client, s: Signal): Client { c.(past := c.past.(trace := c.past.trace + [s])) }

  function Logged(c: Client, h: Handling): Client { c.(past := c.past.(log := c.past.log + [h])) }

  function AccountOf(c: Client): Account {
    Account(c.now.lines, c.pi.queue, c.now.aborted, c.now.device, c.now.wire, c.dtp.link,
            c.now.dataUp, c.ftp.state, c.ftp.nextId)
  }

  // ---------------------------------------------------------------- the queue of commands

  function Number(rs: seq<Request>, id: nat): (cmds: seq<Cmd>)
    ensures |cmds| == |rs|
    ensures forall i :: 0 <= i < |rs| ==> cmds[i] == Cmd(id + i, rs[i].kind, rs[i].raw, rs[i].sink)
  {
    seq(|rs|, i requires 0 <= i < |rs| => Cmd(id + i, rs[i].kind, rs[i].raw, rs[i].sink))
  }

  function Append(f: Ftp, rs: seq<Request>): Ftp {
    f.(pending := f.pending + Number(rs, f.nextId), nextId := f.nextId + |rs|)
  }

  /** The slots connected to commandFinished may enqueue; the queue is not empty then. */
  function UserSlot(f: Ftp): Ftp {
    if f.plan == [] then f else Append(f.(plan := f.plan[1..]), f.plan[0])
  }

  /** connectToHost and setTransferMode go back to trying EPSV and EPRT first, as they enqueue. */
  function Renewed(pi: Pi, rs: seq<Request>): Pi {
    if exists i :: 0 <= i < |rs| && rs[i].kind in {ConnectToHost, SetTransferMode}
    then pi.(extended := true) else pi
  }

  function AddCommand(c: Client, r: Request): Client {
    var f := Append(c.ftp, [r]);
    c.(ftp := if |f.pending| == 1 then f.(timer := true) else f, pi := Renewed(c.pi, [r]))
  }

  function ArgOf(raw: seq<Line>, i: nat): string { if i < |raw| then raw[i].arg else "" }

  function Suffix(raw: seq<Line>): string {
    "@" + ArgOf(raw, 0) + (if ArgOf(raw, 1) in ["", "0", "21"] then "" else ":" + ArgOf(raw, 1))
  }

  /** The first raw line of a Login is edited in place when a proxy is set. */
  function ThroughProxy(f: Ftp, cmd: Cmd): Cmd {
    if cmd.kind == Login && f.proxyHost != "" && cmd.raw != []
    then cmd.(raw := [Line(cmd.raw[0].verb, cmd.raw[0].arg + f.loginSuffix)] + cmd.raw[1..])
    else cmd
  }

  /** What _q_startNextCommand does before it looks at the kind of command. */
  function Begun(c: Client): (r: Client)
    requires c.ftp.pending != []
    ensures |r.ftp.pending| == |c.ftp.pending| && Work(r) == Work(c)
  {
    var cmd := ThroughProxy(c.ftp, c.ftp.pending[0]);
    Emit(c, Started(c.ftp.pending[0].id)).(
      ftp := c.ftp.(pending := [cmd] + c.ftp.pending[1..]),
      now := Now([], false, [], [], false))
  }

  /** SetProxy consumes its arguments. */
  function ProxySet(c: Client): (r: Client)
    requires c.ftp.pending != []
    ensures Work(r) == Work(c) && r.ftp.pending != []
  {
    var cmd := c.ftp.pending[0];
    c.(ftp := c.ftp.(proxyHost := ArgOf(cmd.raw, 0),
                     pending := [cmd.(raw := [])] + c.ftp.pending[1..]))
  }

  /** The preparations particular to some kinds of command. */
  function Prepared(c: Client): (r: Client)
    requires c.ftp.pending != []
    ensures r.ftp.pending == c.ftp.pending && r.ftp.plan == c.ftp.plan
  {
    var cmd := c.ftp.pending[0];
    match cmd.kind
    case Get => if cmd.sink then c.(dtp := c.dtp.(dev := true)) else c
    case Put => c.(dtp := c.dtp.(dev := cmd.sink))
    case Close => c.(ftp := c.ftp.(state := Closing))
    case ConnectToHost =>
      if c.ftp.proxyHost != "" then c.(ftp := c.ftp.(loginSuffix := Suffix(cmd.raw))) else c
    case _ => c
  }

  function StartNextCommand(c: Client): (r: Client)
    ensures r.net.inbox == c.net.inbox
    decreases Work(c), 6
  {
    if c.ftp.pending == [] then c else Dispatch(Prepared(Begun(c)))
  }

  function Dispatch(c: Client): (r: Client)
    requires c.ftp.pending != []
    ensures r.net.inbox == c.net.inbox
    decreases Work(c), 5
  {
    match c.ftp.pending[0].kind
    case SetTransferMode => PiFinished(c)
    case SetProxy => PiFinished(ProxySet(c))
    case ConnectToHost => Dial(c)
    case _ => SendCommands(c, c.ftp.pending[0].raw)
  }

  /** pi.connectToHost: connecting a socket that is not closed changes nothing. */
  function Dial(c: Client): (r: Client)
    ensures r.net.inbox == c.net.inbox
    decreases Work(c), 4
  {
    var s := PiConnectState(c, HostLookup);
    if s.net.ctrl == Down then s.(net := s.net.(ctrl := Opening)) else s
  }

  function PiConnectState(c: Client, q: QState): (r: Client)
    ensures r.net.inbox == c.net.inbox
    decreases Work(c), 3
  {
    if c.ftp.closeWait then PiFinished(c.(ftp := c.ftp.(state := q, closeWait := false)))
    else c.(ftp := c.ftp.(state := q))
  }

  /** commandFinished, the user's slots, and the command leaves the queue. */
  function Popped(c: Client, failed: bool, a: Account): (r: Client)
    requires c.ftp.pending != []
    ensures Work(r) == Work(c) - 1
  {
    var f := UserSlot(c.ftp);
    Emit(c, Finished(c.ftp.pending[0], failed, a)).(
      ftp := f.(pending := f.pending[1..]),
      pi := if c.ftp.plan == [] then c.pi else Renewed(c.pi, c.ftp.plan[0]))
  }

  function PiFinished(c: Client): (r: Client)
    ensures r.net.inbox == c.net.inbox
    decreases Work(c), 2
  {
    if c.ftp.pending == [] then c
    else if c.ftp.pending[0].kind == Close && c.ftp.state != Unconnected
    then c.(ftp := c.ftp.(closeWait := true))
    else
      var s := Popped(c, false, AccountOf(c));
      if s.ftp.pending == [] then Emit(s, Done(false)) else StartNextCommand(s)
  }

  /** Errors that do not end the command: a refused SIZE in Get, a refused ALLO in Put. */
  predicate Forgiven(c: Client) {
    (HeadIs(c, Get) && CurIs(c.pi, SIZE)) || (HeadIs(c, Put) && CurIs(c.pi, ALLO))
  }

  /** Both clearPendingCommands: of the interpreter and of the queue. */
  function Cleared(c: Client): Client {
    var s := AbortConnection(c.(pi := c.pi.(queue := [])));
    s.(pi := s.pi.(cur := None, state := Idle),
       ftp := s.ftp.(pending := if s.ftp.pending == [] then [] else s.ftp.pending[..1]))
  }

  function PiError(c: Client): (r: Client)
    ensures r.net.inbox == c.net.inbox
    decreases Work(c), 2
  {
    if c.ftp.pending == [] || Forgiven(c) then c
    else
      var s0 := Cleared(c);
      var s := Popped(s0, true, AccountOf(c).(data := s0.dtp.link));
      if s.ftp.pending == [] then Emit(s, Done(true)) else StartNextCommand(s)
  }

  // ------------------------------------------------------------ the protocol interpreter

  /** QFtpDTP::abortConnection while a reply is being processed. Aborting an open socket emits
      CsClosed at once, and the nested readyRead would append any further reply to the text of
      the one in hand. */
  function AbortConnection(c: Client): Client {
    if c.dtp.link == Down then c.(dtp := c.dtp.(dev := false))
    else c.(dtp := c.dtp.(link := Down, dev := false), past := Merged(c))
  }

  /** The nested readyRead does harm exactly when it finds something to do. */
  function Merged(c: Client): Past {
    if c.pi.waitClose || c.net.inbox != [] then c.past.(garbled := true) else c.past
  }

  function SendCommands(c: Client, cmds: seq<Line>): (r: Client)
    ensures r.net.inbox == c.net.inbox
    decreases Work(c), 4
  {
    if c.pi.queue != [] then c
    else if c.net.ctrl != Up || c.pi.state != Idle then PiError(c)
    else StartNextCmd(c.(pi := c.pi.(queue := cmds)))
  }

  function Send(c: Client, l: Line): Client
    requires c.pi.queue != []
  {
    c.(pi := c.pi.(cur := Some(l), queue := c.pi.queue[1..], state := Waiting),
       net := c.net.(unanswered := c.net.unanswered + [l]),
       now := c.now.(lines := c.now.lines + [Exchange(l, 0)]))
  }

  function Listening(c: Client): Client { c.(dtp := c.dtp.(listening := true)) }

  /** The first queued line as it goes out, PORT and PASV edited in place; IPv6 has no PORT. */
  function Edited(c: Client): Option<Line>
    requires c.pi.queue != []
  {
    var l := c.pi.queue[0];
    if l.verb == PORT then
      (if c.net.ip6 && c.pi.extended then Some(Line(EPRT, c.net.local))
       else if !c.net.ip6 then Some(Line(PORT, c.net.local)) else None)
    else if l.verb == PASV && c.net.ip6 && c.pi.extended then Some(Line(EPSV, ""))
    else Some(l)
  }

  function SendFirst(c: Client): Client
    requires c.pi.queue != []
  {
    match Edited(c)
    case None => c.(pi := c.pi.(cur := Some(c.pi.queue[0])))
    case Some(l) => Send(if c.pi.queue[0].verb == PORT then Listening(c) else c, l)
  }

  function StartNextCmd(c: Client): (r: Client)
    ensures r.net.inbox == c.net.inbox
    decreases Work(c), 3
  {
    if c.pi.waitConn then c
    else if c.pi.queue == [] then PiFinished(c.(pi := c.pi.(cur := None)))
    else SendFirst(c)
  }

  /** A 227 or 229 with an address: an old socket is deleted first, which closes it. */
  function ConnectData(c: Client): Client {
    if c.dtp.link == Down
    then c.(pi := c.pi.(waitConn := true), dtp := c.dtp.(link := Opening))
    else c.(pi := c.pi.(waitConn := true), dtp := c.dtp.(link := Opening, dev := false),
            past := Merged(c))
  }

  /** The special actions on certain replies, skipped for a user's raw command. */
  function SpecialAction(c: Client, r: Reply): (s: Client)
    ensures s.net.inbox == c.net.inbox
  {
    if HeadIs(c, RawCommand) then c
    else if r.code == 227 || r.code == 229 then (if r.addrOk then ConnectData(c) else c)
    else if r.code == 230 then PiConnectState(PassDropped(c), LoggedIn)
    else c
  }

  function PassDropped(c: Client): Client {
    if CurIs(c.pi, USER) && c.pi.queue != [] && c.pi.queue[0].verb == PASS
    then c.(pi := c.pi.(queue := c.pi.queue[1..])) else c
  }

  function NextState(code: nat): PiState {
    if code == 202 then Failure
    else match code / 100
      case 1 => Waiting
      case 2 => Success
      case 3 => Idle
      case _ => Failure
  }

  /** A refused EPSV or EPRT is replaced by its older form; anything else is an error. */
  function Refused(c: Client): (r: Client)
    ensures r.net.inbox == c.net.inbox
  {
    if CurIs(c.pi, EPSV)
    then c.(pi := c.pi.(extended := false, queue := [Line(PASV, "")] + c.pi.queue))
    else if CurIs(c.pi, EPRT)
    then c.(pi := c.pi.(extended := false, queue := [Line(PORT, "")] + c.pi.queue))
    else PiError(c)
  }

  /** The reaction to the state that the reply led to. */
  function React(c: Client): (r: Client)
    ensures r.net.inbox == c.net.inbox
  {
    match c.pi.state
    case Success => StartNextCmd(c.(pi := c.pi.(state := Idle)))
    case Idle => StartNextCmd(c)
    case Failure =>
      var s := Refused(c);
      if s.pi.state != Waiting then StartNextCmd(s.(pi := s.pi.(state := Idle))) else s
    case _ => c
  }

  /** The final code is entered for the line written last, and the new state is looked up. */
  function Answered(c: Client, code: nat): Client {
    var ls := c.now.lines;
    c.(pi := c.pi.(state := NextState(code)),
       now := if ls == [] || !Final(code) then c.now
              else c.now.(lines := ls[..|ls| - 1] + [Exchange(ls[|ls| - 1].line, code)]))
  }

  /** Replies that must wait for the data connection to close. */
  predicate Holds(c: Client, r: Reply) {
    (r.code == 226 || (r.code == 250 && CurIs(c.pi, RETR))) && c.dtp.link != Down
  }

  /** processReply once the reply is not held and the abort state has been moved on. */
  function Serve(c: Client, r: Reply): (s: Client)
    ensures s.net.inbox == c.net.inbox
  {
    match c.pi.state
    case Begin =>
      var s := Logged(c, Served(r.cause, c.pi.cur, r.code));
      if r.code / 100 != 2 then s
      else React(SpecialAction(PiFinished(s.(pi := s.pi.(state := Idle))), r))
    case Waiting =>
      var s := Logged(c, Served(r.cause, c.pi.cur, r.code));
      React(SpecialAction(Answered(s, r.code), r))
    case _ => Logged(c, Dropped(r.cause))
  }

  /** The first reply after ABOR was sent ends the aborted command. */
  function Advanced(c: Client): Client {
    if c.pi.abort == AbortStarted then c.(pi := c.pi.(abort := WaitForAbortToFinish)) else c
  }

  function ProcessReply(c: Client, r: Reply): (res: (Client, bool))
    ensures res.0.net.inbox == c.net.inbox
  {
    if Holds(c, r) then (c.(pi := c.pi.(waitClose := true, held := r)), false)
    else if c.pi.abort == WaitForAbortToFinish
    then (Logged(c.(pi := c.pi.(abort := NoAbort)), Swallowed(r.cause)), true)
    else (Serve(Advanced(c), r), true)
  }

  /** The loop of readyRead, one complete reply a turn. A reply that was held leaves replyText
      non-empty, so a further one in the same delivery would be appended to it. */
  function ReadLoop(c: Client): Client
    decreases |c.net.inbox|
  {
    if c.net.inbox == [] then c
    else if c.pi.busy then c.(net := c.net.(inbox := []), past := c.past.(garbled := true))
    else
      var s := c.(net := c.net.(inbox := c.net.inbox[1..]), pi := c.pi.(busy := true));
      var (t, done) := ProcessReply(s, c.net.inbox[0]);
      ReadLoop(if done then t.(pi := t.pi.(busy := false)) else t)
  }

  function ReadyRead(c: Client): Client {
    if c.pi.waitClose then c else ReadLoop(c)
  }

  // --------------------------------------------------------------- the data connection

  /** dtpConnectState(CsClosed) */
  function DataClosed(c: Client): Client {
    if c.pi.waitClose then
      var (s, done) := ProcessReply(c, c.pi.held);
      if done then ReadyRead(s.(pi := s.pi.(busy := false, waitClose := false))) else s
    else ReadyRead(c)
  }

  function DataDown(c: Client): Client {
    DataClosed(c.(dtp := c.dtp.(link := Down, dev := false)))
  }

  function DataUp(c: Client): Client {
    StartNextCmd(c.(dtp := c.dtp.(link := Up), pi := c.pi.(waitConn := false),
                    now := c.now.(dataUp := true)))
  }

  function DataRefused(c: Client): Client {
    StartNextCmd(PiError(c.(dtp := c.dtp.(link := Down))))
  }

  /** socketReadyRead */
  function DataArrives(c: Client, chunk: seq<byte>): Client {
    var s := c.(now := c.now.(wire := c.now.wire + chunk));
    if s.pi.cur == None then DataClosed(DataDown(s))
    else if s.pi.abort == AbortStarted || CurIs(s.pi, LIST) || !s.dtp.dev then s
    else s.(now := s.now.(device := s.now.device + chunk))
  }

  // ------------------------------------------------------------------- the command socket

  function ControlUp(c: Client): Client {
    PiConnectState(c.(net := c.net.(ctrl := Up, greeting := true), pi := c.pi.(state := Begin)),
                   Connected)
  }

  function ControlRefused(c: Client): Client {
    PiError(PiConnectState(c.(net := c.net.(ctrl := Down)), Unconnected))
  }

  function ControlDown(c: Client): Client {
    PiConnectState(c.(net := c.net.(ctrl := Down, inbox := [])), Unconnected)
  }

  /** QFtp::abort */
  function Abort(c: Client): Client {
    if c.ftp.pending == [] then c
    else
      var s := c.(ftp := c.ftp.(pending := c.ftp.pending[..1]), pi := c.pi.(queue := []),
                  now := c.now.(aborted := true));
      if s.pi.abort != NoAbort then s
      else
        var t := s.(pi := s.pi.(abort := AbortStarted),
                    net := s.net.(unanswered := s.net.unanswered + [Line(ABOR, "")]));
        if !CurIs(t.pi, STOR) then t
        else if t.dtp.link == Down then t.(dtp := t.dtp.(dev := false))
        else DataDown(t)
  }
}
