/**
 Runs of the engine against a server. The server answers as sections 4.2, 5.4 and 6 of RFC 959
 have it: every line gets any number of 1yz replies and then one final reply, in order, and
 nothing comes unasked. The user may enqueue at any time but not from a slot on done().
 */
module FtpRun {
  import opened Text
  import opened FtpTypes
  import opened FtpSpec

  datatype Event =
    | UserAdds(request: Request)
    | Fire                             // the single shot armed by addCommand
    | HostFound
    | ControlOpens
    | ControlFails
    | ControlCloses
    | Delivery(replies: seq<Reply>)    // complete replies that arrive together
    | DataOpens
    | DataFails
    | DataCloses
    | DataAccepted                     // active mode: the server has connected
    | DataComes(chunk: seq<byte>)
    | AbortCalled

  const AborLine := Line(ABOR, "")

  /** The raw lines that each public function of QFtp puts together. */
  predicate Shape(r: Request) {
    var raw := r.raw;
    match r.kind
    case ConnectToHost => |raw| == 2
    case SetProxy => |raw| == 2
    case SetTransferMode => raw == []
    case Login => |raw| == 2 && raw[0].verb == USER && raw[1].verb == PASS
    case Close => raw == [Line(QUIT, "")]
    case ListDir => |raw| == 3 && raw[0].verb == TYPE && DataLine(raw[1]) && raw[2].verb == LIST
    case Get =>
      |raw| == 4 && raw[0].verb == TYPE && raw[1].verb == SIZE && DataLine(raw[2]) &&
      raw[3].verb == RETR
    case Put =>
      3 <= |raw| <= 4 && raw[0].verb == TYPE && DataLine(raw[1]) &&
      (|raw| == 4 ==> raw[2].verb == ALLO) && raw[|raw| - 1].verb == STOR
    case RawCommand => |raw| == 1
    case Simple => 1 <= |raw| <= 2 && forall l :: l in raw ==> l.verb == OTHER
  }

  predicate DataLine(l: Line) { l == Line(PASV, "") || l == Line(PORT, "") }

  predicate Shapes(rs: seq<Request>) { forall i :: 0 <= i < |rs| ==> Shape(rs[i]) }

  predicate ShapedPlan(plan: seq<seq<Request>>) { forall i :: 0 <= i < |plan| ==> Shapes(plan[i]) }

  /** What the server still owes after sending these replies. */
  function Left(owed: seq<Line>, rs: seq<Reply>): seq<Line>
  {
    if rs == [] then owed
    else Left(if Final(rs[0].code) && owed != [] then owed[1..] else owed, rs[1..])
  }

  /** Replies in the order of the lines, each naming the line it answers. */
  predicate InOrder(owed: seq<Line>, rs: seq<Reply>) {
    rs == [] ||
    (owed != [] && 100 <= rs[0].code < 600 && rs[0].cause == Some(owed[0]) &&
     InOrder(if Final(rs[0].code) then owed[1..] else owed, rs[1..]))
  }

  /** 120 any number of times, then 220 or 421. */
  predicate Greets(rs: seq<Reply>) {
    rs == [] ||
    (rs[0].cause == None &&
     ((rs[0].code == 120 && Greets(rs[1..])) || (rs[0].code in {220, 421} && |rs| == 1)))
  }

  /** The lines that these replies answer for good. */
  function Causes(rs: seq<Reply>): seq<Line> {
    if rs == [] then []
    else (if rs[0].cause.Some? && Final(rs[0].code) then [rs[0].cause.value] else []) + Causes(rs[1..])
  }

  /** Lines written whose final reply has not been processed, oldest first. */
  function Outstanding(c: Client): seq<Line> { Causes(c.net.inbox) + c.net.unanswered }

  /** Replies that are lost with the connection count as never given. */
  function Lost(c: Client): Client { c.(net := c.net.(inbox := [], unanswered := Outstanding(c))) }

  /** The server's own record and the client's socket buffer after a delivery. */
  function Taken(c: Client, rs: seq<Reply>): Client {
    c.(net := c.net.(inbox := c.net.inbox + rs,
                     greeting := c.net.greeting && forall i :: 0 <= i < |rs| ==> !Final(rs[i].code),
                     unanswered := if c.net.greeting then c.net.unanswered
                                   else Left(c.net.unanswered, rs)),
       past := c.past.(lawful := c.past.lawful && forall i :: 0 <= i < |rs| ==> StrictReply(rs[i]),
                       early := c.past.early + (if EndsEarly(c.dtp.link, rs) then 1 else 0)))
  }

  /** A LIST or STOR is ended with 250, which is not kept back like 226, while a data connection
      is up. */
  predicate EndsEarly(link: Link, rs: seq<Reply>) {
    exists i :: 0 <= i < |rs| && !Timely(link, rs[i])
  }

  predicate Timely(link: Link, r: Reply) {
    r.code == 250 && r.cause.Some? && r.cause.value.verb in {LIST, STOR} ==> link == Down
  }

  predicate Proper(link: Link, r: Reply) { StrictReply(r) && Timely(link, r) }

  /** A lawful run in which no transfer was ended early. */
  predicate Strict(p: Past) { p.lawful && p.early == 0 }

  /** Section 5.4 for the lines that open or use a data connection: an accepted PASV or EPSV
      names an address, only they do, and a finished transfer ends with 226 or 250. */
  predicate StrictReply(r: Reply) {
    r.cause.Some? ==>
      var v := r.cause.value.verb;
      var accepted := r.code / 100 == 2 && r.code != 202;
      && (v == PASV && accepted ==> r.code == 227 && r.addrOk)
      && (v == EPSV && accepted ==> r.code == 229 && r.addrOk)
      && (r.code == 227 ==> v == PASV) && (r.code == 229 ==> v == EPSV)
      && (v in {RETR, LIST, STOR} && accepted ==> r.code in {226, 250})
      && (v in {PASV, EPSV, RETR, LIST, STOR} ==> r.code / 100 != 3)
  }

  /** While an ABOR is in progress its two replies come in separate deliveries, no 1yz crosses
      it (120 may come while the greeting is awaited), and its own reply does not announce a data
      connection that is still to close. */
  predicate AbortManners(c: Client, rs: seq<Reply>) {
    c.pi.abort != NoAbort ==>
      && |rs| == 1 && (Final(rs[0].code) || c.net.greeting)
      && (rs[0].cause == Some(AborLine) && rs[0].code in {226, 250}
          ==> c.dtp.link == Down || c.pi.waitClose)
  }

  /** What user, network and server may do next. ABOR is used while a reply is awaited, and the
      command connection is not reopened between an ABOR and its reply. */
  predicate Enabled(c: Client, e: Event) {
    match e
    case UserAdds(r) => Shape(r)
    case Fire => c.ftp.timer
    case HostFound => c.net.ctrl == Opening
    case ControlOpens => c.net.ctrl == Opening && c.pi.abort == NoAbort
    case ControlFails => c.net.ctrl == Opening
    case ControlCloses => c.net.ctrl == Up
    case Delivery(rs) =>
      c.net.ctrl == Up && rs != [] && AbortManners(c, rs) &&
      (if c.net.greeting then Greets(rs) else InOrder(c.net.unanswered, rs))
    case DataOpens => c.dtp.link == Opening
    case DataFails => c.dtp.link == Opening
    case DataCloses => c.dtp.link == Up
    case DataAccepted => c.dtp.listening && c.dtp.link == Down
    case DataComes(_) => c.dtp.link == Up
    case AbortCalled => c.pi.state == Waiting && c.pi.abort == NoAbort
  }

  predicate PassiveRequest(r: Request) { forall l :: l in r.raw ==> l.verb !in {PORT, EPRT} }

  predicate PassivePlan(plan: seq<seq<Request>>) {
    forall i, j :: 0 <= i < |plan| && 0 <= j < |plan[i]| ==> PassiveRequest(plan[i][j])
  }

  function Noted(c: Client, ok: bool): Client {
    c.(past := c.past.(lawful := c.past.lawful && ok))
  }

  function Step(c: Client, e: Event): Client {
    match e
    case UserAdds(r) => AddCommand(Noted(c, PassiveRequest(r)), r)
    case Fire => StartNextCommand(c.(ftp := c.ftp.(timer := false)))
    case HostFound => PiConnectState(c, Connecting)
    case ControlOpens => ControlUp(c)
    case ControlFails => ControlRefused(c)
    case ControlCloses => ControlDown(Lost(c))
    case Delivery(rs) => ReadyRead(Taken(c, rs))
    case DataOpens => DataUp(c)
    case DataFails => DataRefused(c)
    case DataCloses => DataDown(c)
    case DataAccepted => c.(dtp := c.dtp.(link := Up, listening := false))
    case DataComes(chunk) => DataArrives(c, chunk)
    case AbortCalled => Abort(Noted(c, false))
  }

  /** A new QFtp object; `plan` is what the slots on commandFinished will ever enqueue. */
  function Init(ip6: bool, local: string, plan: seq<seq<Request>>): Client {
    Client(
      Pi(Begin, NoAbort, [], None, false, false, true, false, Reply(0, false, None)),
      Dtp(Down, false, false),
      Ftp([], false, Unconnected, "", "", false, 1, plan),
      Net(Down, [], ip6, local, false, []),
      Now([], false, [], [], false),
      Past([], [], PassivePlan(plan), 0, false))
  }

  function Run(c: Client, es: seq<Event>): Client
    decreases |es|
  {
    if es == [] then c else Run(Step(c, es[0]), es[1..])
  }

  predicate Allowed(c: Client, es: seq<Event>)
    decreases |es|
  {
    es == [] || (Enabled(c, es[0]) && Allowed(Step(c, es[0]), es[1..]))
  }
}
