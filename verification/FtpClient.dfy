/**
 The engine in the form of the program: an object whose slots update its parts and call each
 other. Every method is the corresponding function of FtpSpec on the state of the object. The
 parts are the records of QFtpPI, QFtpDTP and QFtpPrivate and of the command socket. With
 Handle, which gives each event to its slot, the object goes through the runs of FtpRun.
 */
module FtpClient {
  import opened Text
  import opened FtpTypes
  import opened FtpSpec
  import opened FtpRun
  import opened FtpControl
  import opened FtpLockstep

  class QFtp {
    var pi: Pi
    var dtp: Dtp
    var ftp: Ftp
    var net: Net
    ghost var now: Now
    ghost var past: Past

    ghost function View(): Client
      reads this
    {
      Client(pi, dtp, ftp, net, now, past)
    }

    constructor (ip6: bool, localAddress: string, plan: seq<seq<Request>>)
      ensures View() == Init(ip6, localAddress, plan) && Rest(View())
    {
      pi := Pi(Begin, NoAbort, [], None, false, false, true, false, Reply(0, false, None));
      dtp := Dtp(Down, false, false);
      ftp := Ftp([], false, Unconnected, "", "", false, 1, plan);
      net := Net(Down, [], ip6, localAddress, false, []);
      now, past := Now([], false, [], [], false), Past([], [], PassivePlan(plan), 0, false);
    }

    ghost method Emits(s: Signal)
      modifies this`past
      ensures View() == Emit(old(View()), s)
    {
      past := past.(trace := past.trace + [s]);
    }

    ghost method Notes(h: Handling)
      modifies this`past
      ensures View() == Logged(old(View()), h)
    {
      past := past.(log := past.log + [h]);
    }

    method Enqueue(rs: seq<Request>)
      modifies this
      ensures View() == old(View()).(ftp := Append(old(ftp), rs), pi := Renewed(old(pi), rs))
    {
      ftp := ftp.(pending := ftp.pending + Number(rs, ftp.nextId));
      ftp := ftp.(nextId := ftp.nextId + |rs|);
      if exists i :: 0 <= i < |rs| && rs[i].kind in {ConnectToHost, SetTransferMode} {
        pi := pi.(extended := true);
      }
    }

    method AddCommand(r: Request)
      modifies this
      ensures View() == FtpSpec.AddCommand(old(View()), r)
    {
      Enqueue([r]);
      if |ftp.pending| == 1 {
        ftp := ftp.(timer := true);
      }
    }

    /** commandFinished, with the user's slots, and the removal of the command. */
    method Pop(failed: bool, ghost a: Account)
      requires ftp.pending != []
      modifies this
      ensures View() == Popped(old(View()), failed, a)
    {
      Emits(Finished(ftp.pending[0], failed, a));
      if ftp.plan != [] {
        var rs := ftp.plan[0];
        ftp := ftp.(plan := ftp.plan[1..]);
        Enqueue(rs);
      }
      ftp := ftp.(pending := ftp.pending[1..]);
    }

    method Begins()
      requires ftp.pending != []
      modifies this
      ensures View() == Begun(old(View()))
    {
      Emits(Started(ftp.pending[0].id));
      now := Now([], false, [], [], false);
      ftp := ftp.(pending := [ThroughProxy(ftp, ftp.pending[0])] + ftp.pending[1..]);
    }

    method Prepares()
      requires ftp.pending != []
      modifies this
      ensures View() == Prepared(old(View()))
    {
      match ftp.pending[0].kind
      case Get =>
        if ftp.pending[0].sink {
          dtp := dtp.(dev := true);
        }
      case Put => dtp := dtp.(dev := ftp.pending[0].sink);
      case Close => ftp := ftp.(state := Closing);
      case ConnectToHost =>
        if ftp.proxyHost != "" {
          ftp := ftp.(loginSuffix := Suffix(ftp.pending[0].raw));
        }
      case _ =>
    }

    /** _q_startNextCommand */
    method StartNextCommand()
      modifies this
      ensures View() == FtpSpec.StartNextCommand(old(View()))
      decreases |ftp.pending| + Planned(ftp.plan), 6
    {
      if ftp.pending == [] {
        return;
      }
      Begins();
      Prepares();
      DispatchCommand();
    }

    method DispatchCommand()
      requires ftp.pending != []
      modifies this
      ensures View() == Dispatch(old(View()))
      decreases |ftp.pending| + Planned(ftp.plan), 5
    {
      match ftp.pending[0].kind
      case SetTransferMode => PiFinished();
      case SetProxy =>
        ftp := ftp.(proxyHost := ArgOf(ftp.pending[0].raw, 0));
        ftp := ftp.(pending := [ftp.pending[0].(raw := [])] + ftp.pending[1..]);
        PiFinished();
      case ConnectToHost => OpenCommandSocket();
      case _ => SendCommands(ftp.pending[0].raw);
    }

    method OpenCommandSocket()
      modifies this
      ensures View() == Dial(old(View()))
      decreases |ftp.pending| + Planned(ftp.plan), 4
    {
      PiConnectState(HostLookup);
      if net.ctrl == Down {
        net := net.(ctrl := Opening);
      }
    }

    method PiConnectState(q: QState)
      modifies this
      ensures View() == FtpSpec.PiConnectState(old(View()), q)
      decreases |ftp.pending| + Planned(ftp.plan), 3
    {
      ftp := ftp.(state := q);
      if ftp.closeWait {
        ftp := ftp.(closeWait := false);
        PiFinished();
      }
    }

    method PiFinished()
      modifies this
      ensures View() == FtpSpec.PiFinished(old(View()))
      decreases |ftp.pending| + Planned(ftp.plan), 2
    {
      if ftp.pending == [] {
        return;
      }
      if ftp.pending[0].kind == Close && ftp.state != Unconnected {
        ftp := ftp.(closeWait := true);
        return;
      }
      Pop(false, AccountOf(View()));
      if ftp.pending == [] {
        Emits(Done(false));
      } else {
        StartNextCommand();
      }
    }

    method PiError()
      modifies this
      ensures View() == FtpSpec.PiError(old(View()))
      decreases |ftp.pending| + Planned(ftp.plan), 2
    {
      if ftp.pending == [] {
        return;
      }
      if (ftp.pending[0].kind == Get && CurIs(pi, SIZE)) ||
         (ftp.pending[0].kind == Put && CurIs(pi, ALLO))
      {
        return;
      }
      ghost var a := AccountOf(View());
      ClearPendingCommands();
      Pop(true, a.(data := dtp.link));
      if ftp.pending == [] {
        Emits(Done(true));
      } else {
        StartNextCommand();
      }
    }

    /** clearPendingCommands of the interpreter and of the queue. */
    method ClearPendingCommands()
      requires ftp.pending != []
      modifies this
      ensures View() == Cleared(old(View()))
    {
      pi := pi.(queue := []);
      AbortData();
      pi := pi.(cur := None);
      pi := pi.(state := Idle);
      ftp := ftp.(pending := ftp.pending[..1]);
    }

    /** QFtpDTP::abortConnection in the middle of a reply. */
    method AbortData()
      modifies this
      ensures View() == AbortConnection(old(View()))
    {
      if dtp.link != Down {
        past := Merged(View());
      }
      dtp := dtp.(dev := false, link := Down);
    }

    method SendCommands(cmds: seq<Line>)
      modifies this
      ensures View() == FtpSpec.SendCommands(old(View()), cmds)
      decreases |ftp.pending| + Planned(ftp.plan), 4
    {
      if pi.queue != [] {
        return;
      }
      if net.ctrl != Up || pi.state != Idle {
        PiError();
        return;
      }
      pi := pi.(queue := cmds);
      StartNextCmd();
    }

    method StartNextCmd()
      modifies this
      ensures View() == FtpSpec.StartNextCmd(old(View()))
      decreases |ftp.pending| + Planned(ftp.plan), 3
    {
      if pi.waitConn {
        return;
      }
      if pi.queue == [] {
        pi := pi.(cur := None);
        PiFinished();
        return;
      }
      WriteFirst();
    }

    /** The rest of startNextCmd: PORT and PASV are edited, and the line is written. */
    method WriteFirst()
      requires pi.queue != []
      modifies this
      ensures View() == SendFirst(old(View()))
    {
      var line := pi.queue[0];
      if line.verb == PORT {
        if net.ip6 && pi.extended {
          dtp := dtp.(listening := true);
          line := Line(EPRT, net.local);
        } else if !net.ip6 {
          dtp := dtp.(listening := true);
          line := Line(PORT, net.local);
        } else {
          pi := pi.(cur := Some(line));
          return;
        }
      } else if line.verb == PASV && net.ip6 && pi.extended {
        line := Line(EPSV, "");
      }
      pi := pi.(cur := Some(line), queue := pi.queue[1..], state := Waiting);
      net := net.(unanswered := net.unanswered + [line]);
      now := now.(lines := now.lines + [Exchange(line, 0)]);
    }

    method ConnectDataTo()
      modifies this
      ensures View() == ConnectData(old(View()))
    {
      if dtp.link != Down {
        past := Merged(View());
        dtp := dtp.(dev := false);
      }
      pi := pi.(waitConn := true);
      dtp := dtp.(link := Opening);
    }

    method Special(r: Reply)
      modifies this
      ensures View() == SpecialAction(old(View()), r)
    {
      if ftp.pending != [] && ftp.pending[0].kind == RawCommand {
        return;
      }
      if r.code == 227 || r.code == 229 {
        if r.addrOk {
          ConnectDataTo();
        }
      } else if r.code == 230 {
        if CurIs(pi, USER) && pi.queue != [] && pi.queue[0].verb == PASS {
          pi := pi.(queue := pi.queue[1..]);
        }
        PiConnectState(LoggedIn);
      }
    }

    method ReactToState()
      modifies this
      ensures View() == React(old(View()))
    {
      match pi.state
      case Success =>
        pi := pi.(state := Idle);
        StartNextCmd();
      case Idle => StartNextCmd();
      case Failure =>
        HandleRefusal();
        if pi.state != Waiting {
          pi := pi.(state := Idle);
          StartNextCmd();
        }
      case _ =>
    }

    method HandleRefusal()
      modifies this
      ensures View() == Refused(old(View()))
    {
      if CurIs(pi, EPSV) {
        pi := pi.(extended := false);
        pi := pi.(queue := [Line(PASV, "")] + pi.queue);
      } else if CurIs(pi, EPRT) {
        pi := pi.(extended := false);
        pi := pi.(queue := [Line(PORT, "")] + pi.queue);
      } else {
        PiError();
      }
    }

    /** processReply; the result says whether the reply was processed or is held. */
    method ProcessReply(r: Reply) returns (done: bool)
      modifies this
      ensures (View(), done) == FtpSpec.ProcessReply(old(View()), r)
    {
      if (r.code == 226 || (r.code == 250 && CurIs(pi, RETR))) && dtp.link != Down {
        pi := pi.(waitClose := true, held := r);
        return false;
      }
      if pi.abort == WaitForAbortToFinish {
        pi := pi.(abort := NoAbort);
        Notes(Swallowed(r.cause));
        return true;
      }
      if pi.abort == AbortStarted {
        pi := pi.(abort := WaitForAbortToFinish);
      }
      ServeReply(r);
      return true;
    }

    method ServeReply(r: Reply)
      modifies this
      ensures View() == Serve(old(View()), r)
    {
      match pi.state
      case Begin =>
        Notes(Served(r.cause, pi.cur, r.code));
        if r.code / 100 != 2 {
          return;
        }
        pi := pi.(state := Idle);
        PiFinished();
        Special(r);
        ReactToState();
      case Waiting =>
        Notes(Served(r.cause, pi.cur, r.code));
        EnterCode(r.code);
        Special(r);
        ReactToState();
      case _ =>
        Notes(Dropped(r.cause));
    }

    method EnterCode(code: nat)
      modifies this
      ensures View() == Answered(old(View()), code)
    {
      pi := pi.(state := NextState(code));
      if now.lines != [] && Final(code) {
        now := now.(lines := now.lines[..|now.lines| - 1] +
                             [Exchange(now.lines[|now.lines| - 1].line, code)]);
      }
    }

    /** The reading loop of readyRead, a complete reply a turn. */
    method ReadReplies()
      modifies this
      ensures View() == ReadLoop(old(View()))
    {
      while net.inbox != []
        invariant ReadLoop(View()) == ReadLoop(old(View()))
        decreases |net.inbox|
      {
        if pi.busy {
          net := net.(inbox := []);
          past := past.(garbled := true);
          return;
        }
        var r := net.inbox[0];
        net := net.(inbox := net.inbox[1..]);
        pi := pi.(busy := true);
        var done := ProcessReply(r);
        if done {
          pi := pi.(busy := false);
        }
      }
    }

    method ReadyRead()
      modifies this
      ensures View() == FtpSpec.ReadyRead(old(View()))
    {
      if pi.waitClose {
        return;
      }
      ReadReplies();
    }

    /** dtpConnectState(CsClosed) */
    method DtpClosed()
      modifies this
      ensures View() == DataClosed(old(View()))
    {
      if pi.waitClose {
        var done := ProcessReply(pi.held);
        if !done {
          return;
        }
        pi := pi.(busy := false);
      }
      pi := pi.(waitClose := false);
      ReadyRead();
    }

    method SocketConnectionClosed()
      modifies this
      ensures View() == DataDown(old(View()))
    {
      dtp := dtp.(link := Down, dev := false);
      DtpClosed();
    }

    /** dtpConnectState(CsConnected) */
    method DtpConnected()
      modifies this
      ensures View() == DataUp(old(View()))
    {
      dtp := dtp.(link := Up);
      now := now.(dataUp := true);
      pi := pi.(waitConn := false);
      StartNextCmd();
    }

    /** dtpConnectState(CsConnectionRefused) */
    method DtpRefused()
      modifies this
      ensures View() == DataRefused(old(View()))
    {
      dtp := dtp.(link := Down);
      PiError();
      StartNextCmd();
    }

    /** socketReadyRead; closing the socket reports CsClosed twice. */
    method SocketReadyRead(chunk: seq<byte>)
      modifies this
      ensures View() == DataArrives(old(View()), chunk)
    {
      now := now.(wire := now.wire + chunk);
      if pi.cur == None {
        SocketConnectionClosed();
        DtpClosed();
      } else if pi.abort != AbortStarted && !CurIs(pi, LIST) && dtp.dev {
        now := now.(device := now.device + chunk);
      }
    }

    method ControlConnected()
      modifies this
      ensures View() == ControlUp(old(View()))
    {
      net := net.(ctrl := Up, greeting := true);
      pi := pi.(state := Begin);
      PiConnectState(Connected);
    }

    method ConnectionFailed()
      modifies this
      ensures View() == ControlRefused(old(View()))
    {
      net := net.(ctrl := Down);
      PiConnectState(Unconnected);
      PiError();
    }

    method ConnectionClosed()
      modifies this
      ensures View() == ControlDown(old(View()))
    {
      net := net.(ctrl := Down, inbox := []);
      PiConnectState(Unconnected);
    }

    method Abort()
      modifies this
      ensures View() == FtpSpec.Abort(old(View()))
    {
      if ftp.pending == [] {
        return;
      }
      ftp := ftp.(pending := ftp.pending[..1]);
      pi := pi.(queue := []);
      now := now.(aborted := true);
      if pi.abort != NoAbort {
        return;
      }
      pi := pi.(abort := AbortStarted);
      net := net.(unanswered := net.unanswered + [Line(ABOR, "")]);
      if CurIs(pi, STOR) {
        if dtp.link == Down {
          dtp := dtp.(dev := false);
        } else {
          SocketConnectionClosed();
        }
      }
    }

    // ---------------------------------------------------------------------------- the events

    ghost method Records(ok: bool)
      modifies this`past
      ensures View() == Noted(old(View()), ok)
    {
      past := past.(lawful := past.lawful && ok);
    }

    /** Replies arrive on the command socket. */
    method ReceiveReplies(rs: seq<Reply>)
      modifies this
      ensures View() == FtpSpec.ReadyRead(Taken(old(View()), rs))
    {
      past := Taken(View(), rs).past;
      net := net.(inbox := net.inbox + rs,
                  greeting := net.greeting && forall i :: 0 <= i < |rs| ==> !Final(rs[i].code),
                  unanswered := if net.greeting then net.unanswered else Left(net.unanswered, rs));
      ReadyRead();
    }

    /** The command connection is lost, and with it the replies that were not read. */
    method LoseConnection()
      modifies this
      ensures View() == ControlDown(Lost(old(View())))
    {
      net := net.(inbox := [], unanswered := Causes(net.inbox) + net.unanswered);
      ConnectionClosed();
    }

    /** The single shot of addCommand fires. */
    method SingleShot()
      modifies this
      ensures View() == Step(old(View()), Fire)
    {
      ftp := ftp.(timer := false);
      StartNextCommand();
    }

    method Accept()
      modifies this
      ensures View() == Step(old(View()), DataAccepted)
    {
      dtp := dtp.(link := Up, listening := false);
    }

    /** One event: the object takes the step of the run, and it rests again, so that replies and
        lines are in lockstep and the signals in order whatever events follow one another. */
    method Handle(e: Event)
      requires Rest(View()) && Enabled(View(), e)
      modifies this
      ensures View() == Step(old(View()), e) && Rest(View())
    {
      StepRest(View(), e);
      match e
      case UserAdds(r) =>
        Records(PassiveRequest(r));
        AddCommand(r);
      case Fire => SingleShot();
      case HostFound => PiConnectState(Connecting);
      case ControlOpens => ControlConnected();
      case ControlFails => ConnectionFailed();
      case ControlCloses => LoseConnection();
      case Delivery(rs) => ReceiveReplies(rs);
      case DataOpens => DtpConnected();
      case DataFails => DtpRefused();
      case DataCloses => SocketConnectionClosed();
      case DataAccepted => Accept();
      case DataComes(chunk) => SocketReadyRead(chunk);
      case AbortCalled =>
        Records(false);
        Abort();
    }
  }
}
