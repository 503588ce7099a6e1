/**
 The vocabulary of the FTP client engine: raw protocol lines, high-level commands, replies,
 the signals the client emits, and the whole state of client plus server as one value.
 */
module FtpTypes {
  import opened Text

  /** What the engine can tell about a raw line: the prefix it tests for. */
  datatype Verb =
    | USER | PASS | TYPE | SIZE | PASV | EPSV | PORT | EPRT
    | RETR | STOR | ALLO | LIST | QUIT | ABOR | OTHER

  datatype Line = Line(verb: Verb, arg: string)

  /** The high-level commands; Simple stands for cd, remove, mkdir, rmdir and rename. */
  datatype Kind =
    | ConnectToHost | Login | Close | SetTransferMode | SetProxy
    | ListDir | Get | Put | RawCommand | Simple

  /** What a user asks for: `sink` says that a Get was given a device to write to. */
  datatype Request = Request(kind: Kind, raw: seq<Line>, sink: bool)

  datatype Cmd = Cmd(id: nat, kind: Kind, raw: seq<Line>, sink: bool)

  /** A complete reply. `cause` is the line the server answers (None for the greeting); the
      client never looks at it. `addrOk` says that a 227 or 229 text holds an address. */
  datatype Reply = Reply(code: nat, addrOk: bool, cause: Option<Line>)

  /** One line of a high-level command and the code of its final reply (0 while unanswered). */
  datatype Exchange = Exchange(line: Line, code: nat)

  datatype PiState = Begin | Idle | Waiting | Success | Failure
  datatype AbortState = NoAbort | AbortStarted | WaitForAbortToFinish
  datatype Link = Down | Opening | Up
  datatype QState = Unconnected | HostLookup | Connecting | Connected | LoggedIn | Closing

  /** What had happened on behalf of a command at the moment it finished. */
  datatype Account = Account(
    lines: seq<Exchange>,   // raw lines written, with their final codes
    unsent: seq<Line>,      // raw lines still queued when the command ended
    aborted: bool,          // abort() was called while it ran
    device: seq<byte>,      // what a Get wrote to its device
    wire: seq<byte>,        // what the server sent on the data connection
    data: Link,             // the data connection
    wasUp: bool,            // it had come up
    qstate: QState,
    next: nat)              // the id that the next command enqueued was going to get

  newtype byte = x: int | 0 <= x < 256

  /** commandStarted, commandFinished and done. */
  datatype Signal =
    | Started(id: nat)
    | Finished(cmd: Cmd, failed: bool, account: Account)
    | Done(failed: bool)

  /** How one complete reply was used. */
  datatype Handling =
    | Served(cause: Option<Line>, current: Option<Line>, code: nat)
    | Swallowed(cause: Option<Line>)
    | Dropped(cause: Option<Line>)

  /** QFtpPI. */
  datatype Pi = Pi(
    state: PiState,
    abort: AbortState,
    queue: seq<Line>,               // pendingCommands
    cur: Option<Line>,              // currentCmd; None is the empty string
    waitConn: bool,                 // waitForDtpToConnect
    waitClose: bool,                // waitForDtpToClose
    extended: bool,                 // transferConnectionExtended
    busy: bool,                     // replyText is not empty
    held: Reply)                    // the reply kept in replyCode and replyText

  /** QFtpDTP: `dev` is data.dev != 0. */
  datatype Dtp = Dtp(link: Link, listening: bool, dev: bool)

  /** QFtpPrivate, and `plan`: what the slots on commandFinished are going to enqueue. */
  datatype Ftp = Ftp(
    pending: seq<Cmd>,
    closeWait: bool,                // close_waitForStateChange
    state: QState,
    proxyHost: string,
    loginSuffix: string,            // "@host" or "@host:port" of the proxied server
    timer: bool,                    // the single shot of addCommand is armed
    nextId: nat,
    plan: seq<seq<Request>>)

  /** The command socket and the server behind it. */
  datatype Net = Net(
    ctrl: Link,
    inbox: seq<Reply>,              // complete replies not yet read
    ip6: bool,
    local: string,                  // the text the local address puts into PORT or EPRT
    greeting: bool,                 // the greeting has not been sent yet
    unanswered: seq<Line>)          // lines the server has not given a final reply

  /** History of the high-level command that is running. */
  datatype Now = Now(lines: seq<Exchange>, aborted: bool, device: seq<byte>, wire: seq<byte>,
                     dataUp: bool)

  /** History of the whole run: `lawful` says that so far the server has kept to StrictReply, all
      commands were passive-mode ones and nothing was aborted; `early` counts the deliveries that
      ended a LIST or STOR with 250 while a data connection was up; `garbled` says that the reader
      has merged two replies. */
  datatype Past = Past(trace: seq<Signal>, log: seq<Handling>, lawful: bool, early: nat, garbled: bool)

  datatype Client = Client(pi: Pi, dtp: Dtp, ftp: Ftp, net: Net, now: Now, past: Past)
}
