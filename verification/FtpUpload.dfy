/**
 Sending a file: QFtpDTP::writeData and the slots that call it. The device is read in blocks,
 each read again when the socket has passed on some bytes, until the end closes the socket.
 */
module FtpUpload {

  type Byte = bv8
  const BLOCK := 16384

  /** data and is_ba; `Cleared` is a null pointer. */
  datatype Source = Array(bytes: seq<Byte>) | Device | Cleared

  /** The data socket. After close() it goes on sending what it holds. */
  datatype Link = Absent | Connecting | Open | Closing | Down

  /** The answer of the device to a read. */
  datatype Read = Got(count: nat) | Failed

  /** A position in the contents. More contents may arrive at a sequential device. */
  datatype Dev = Dev(content: seq<Byte>, pos: nat, sequential: bool)

  datatype Progress = Progress(done: nat, total: nat)

  /** `sent` is what was handed to the socket, `flushed` how much of it has left; `ended` that
      the branch for the end of the file was taken, `failed` that a read failed. */
  datatype Upload = Upload(
    source: Source, dev: Dev, link: Link, sent: seq<Byte>, flushed: nat,
    callWriteData: bool, bytesDone: nat, bytesTotal: nat, progress: seq<Progress>,
    ended: bool, failed: bool)

  /** Reads return what there is, at most a block; a file returns nothing only at its end. */
  predicate Answers(d: Dev, r: Read) {
    d.pos <= |d.content| &&
    (r.Got? ==>
      r.count <= BLOCK && d.pos + r.count <= |d.content| &&
      (!d.sequential && r.count == 0 ==> d.pos == |d.content|))
  }

  function Emit(u: Upload, done: nat): Upload {
    u.(progress := u.progress + [Progress(done, u.bytesTotal)])
  }

  function SetBytesTotal(u: Upload, total: nat): Upload {
    Emit(u.(bytesTotal := total, bytesDone := 0), 0)
  }

  function WriteArray(u: Upload, bytes: seq<Byte>): Upload {
    (if bytes == [] then Emit(u, 0) else u.(sent := u.sent + bytes))
      .(link := Closing, source := Cleared, ended := true)
  }

  function EndOfDevice(u: Upload, r: Read): Upload {
    (if u.bytesDone == 0 && u.flushed == |u.sent| then Emit(u, 0) else u)
      .(link := Closing, source := Cleared, callWriteData := false, ended := true, failed := r.Failed?)
  }

  function WriteData(u: Upload, r: Read): Upload
    requires u.source.Device? ==> Answers(u.dev, r)
  {
    if u.link.Absent? then u
    else match u.source
      case Array(bytes) => WriteArray(u, bytes)
      case Cleared => u
      case Device =>
        var d := u.dev;
        if r.Got? && r.count > 0 then
          u.(sent := u.sent + d.content[d.pos..d.pos + r.count],
             dev := d.(pos := d.pos + r.count), callWriteData := true)
        else if r.Failed? || (!d.sequential && d.pos == |d.content|) then EndOfDevice(u, r)
        else u.(callWriteData := true)
  }

  function SocketBytesWritten(u: Upload, n: nat, r: Read): Upload
    requires u.source.Device? ==> Answers(u.dev, r)
  {
    var v := Emit(u.(bytesDone := u.bytesDone + n), u.bytesDone + n);
    if v.callWriteData then WriteData(v, r) else v
  }

  function SocketConnected(u: Upload): Upload { u.(bytesDone := 0) }

  function SocketConnectionClosed(u: Upload): Upload {
    if u.source.Device? then u.(source := Cleared) else u
  }

  // ------------------------------------------------------------------------------------ runs

  /** A 1yz reply to STOR starts the upload; a sequential device announces contents. */
  datatype Event =
    | Connected
    | Started(read: Read)
    | Written(count: nat, read: Read)
    | Arrives(more: seq<Byte>, read: Read)
    | Disconnected

  function Grown(u: Upload, more: seq<Byte>): Upload {
    u.(dev := u.dev.(content := u.dev.content + more))
  }

  predicate Enabled(u: Upload, e: Event) {
    match e
    case Connected => u.link.Connecting?
    case Started(r) => u.link.Open? && (u.source.Device? ==> Answers(u.dev, r))
    case Written(n, r) =>
      (u.link.Open? || u.link.Closing?) && 0 < n <= |u.sent| - u.flushed &&
      (u.source.Device? ==> Answers(u.dev, r))
    case Arrives(more, r) =>
      u.source.Device? && u.dev.sequential && !u.link.Closing? && !u.link.Down? &&
      Answers(Grown(u, more).dev, r)
    case Disconnected => u.link.Open? || u.link.Closing?
  }

  function Step(u: Upload, e: Event): Upload
    requires Enabled(u, e)
  {
    match e
    case Connected => SocketConnected(u.(link := Open))
    case Started(r) => WriteData(u, r)
    case Written(n, r) => SocketBytesWritten(u.(flushed := u.flushed + n), n, r)
    case Arrives(more, r) => WriteData(Grown(u, more), r)
    case Disconnected => SocketConnectionClosed(u.(link := Down))
  }

  predicate Possible(u: Upload, es: seq<Event>)
    decreases |es|
  {
    es == [] || (Enabled(u, es[0]) && Possible(Step(u, es[0]), es[1..]))
  }

  function Run(u: Upload, es: seq<Event>): Upload
    requires Possible(u, es)
    decreases |es|
  {
    if es == [] then u else Run(Step(u, es[0]), es[1..])
  }

  /** A Put command has begun: what _q_startNextCommand leaves behind. */
  function Begin(source: Source, dev: Dev, callWriteData: bool): Upload {
    var total :=
      match source
      case Array(bytes) => |bytes|
      case _ => if dev.sequential then 0 else |dev.content|;
    SetBytesTotal(Upload(source, dev, Connecting, [], 0, callWriteData, 0, 0, [], false, false), total)
  }

  // ------------------------------------------------------------------------------ invariants

  /** All that is to be sent: the array, or the device from where it stood. */
  function Whole(source: Source, start: nat, u: Upload): seq<Byte>
    requires start <= |u.dev.content|
  {
    if source.Array? then source.bytes else u.dev.content[start..]
  }

  predicate InOrder(p: seq<Progress>) {
    forall i, j :: 0 <= i <= j < |p| ==> p[i].done <= p[j].done
  }

  predicate Bounded(p: seq<Progress>, total: nat) {
    forall i :: 0 <= i < |p| ==> p[i].done <= total && p[i].total == total
  }

  predicate Reports(u: Upload) {
    u.progress != [] && u.progress[|u.progress| - 1].done == u.bytesDone && InOrder(u.progress)
  }

  predicate Conserves(source: Source, start: nat, u: Upload) {
    start <= u.dev.pos <= |u.dev.content| &&
    u.bytesDone == u.flushed <= |u.sent| &&
    (u.link.Connecting? ==> u.flushed == 0) && !u.link.Absent? &&
    match source
    case Array(bytes) =>
      u.failed == false &&
      if u.ended then u.source.Cleared? && u.sent == bytes else u.source == source && u.sent == []
    case Device =>
      u.sent == u.dev.content[start..u.dev.pos] && !u.source.Array? &&
      (u.ended ==> u.source.Cleared? && (!u.failed && !u.dev.sequential ==> u.dev.pos == |u.dev.content|)) &&
      (u.source.Device? && u.sent != [] ==> u.callWriteData)
    case Cleared => false
  }

  lemma ReadKeeps(source: Source, start: nat, u: Upload, n: nat)
    requires Conserves(source, start, u) && u.source.Device? && Answers(u.dev, Got(n)) && n > 0
    ensures Conserves(source, start, WriteData(u, Got(n)))
  {
    var d := u.dev;
    assert d.content[start..d.pos] + d.content[d.pos..d.pos + n] == d.content[start..d.pos + n];
  }

  lemma WriteKeeps(source: Source, start: nat, u: Upload, r: Read)
    requires Conserves(source, start, u)
    requires u.source.Device? ==> Answers(u.dev, r)
    ensures Conserves(source, start, WriteData(u, r))
  {
    if u.source.Device? && r.Got? && r.count > 0 {
      ReadKeeps(source, start, u, r.count);
    }
  }

  lemma FlushKeeps(source: Source, start: nat, u: Upload, n: nat)
    requires Conserves(source, start, u) && (u.link.Open? || u.link.Closing?) && n <= |u.sent| - u.flushed
    ensures var v := u.(flushed := u.flushed + n, bytesDone := u.bytesDone + n);
            Conserves(source, start, Emit(v, v.bytesDone))
  {
  }

  lemma WrittenKeeps(source: Source, start: nat, u: Upload, n: nat, r: Read)
    requires Conserves(source, start, u) && Enabled(u, Written(n, r))
    ensures Conserves(source, start, Step(u, Written(n, r)))
  {
    var v := u.(flushed := u.flushed + n, bytesDone := u.bytesDone + n);
    var w := Emit(v, v.bytesDone);
    FlushKeeps(source, start, u, n);
    WriteKeeps(source, start, w, r);
    assert Step(u, Written(n, r)) == if w.callWriteData then WriteData(w, r) else w;
  }

  lemma ArrivesKeeps(source: Source, start: nat, u: Upload, more: seq<Byte>, r: Read)
    requires Conserves(source, start, u) && Enabled(u, Arrives(more, r))
    ensures Conserves(source, start, Step(u, Arrives(more, r)))
  {
    var g := Grown(u, more);
    assert g.dev.content[start..g.dev.pos] == u.dev.content[start..u.dev.pos];
    WriteKeeps(source, start, g, r);
  }

  lemma StepKeeps(source: Source, start: nat, u: Upload, e: Event)
    requires Conserves(source, start, u) && Enabled(u, e)
    ensures Conserves(source, start, Step(u, e))
  {
    match e
    case Started(r) => WriteKeeps(source, start, u, r);
    case Written(n, r) => WrittenKeeps(source, start, u, n, r);
    case Arrives(more, r) => ArrivesKeeps(source, start, u, more, r);
    case Connected =>
    case Disconnected =>
  }

  /** A call reports at most once, and then what has been flushed by then. */
  predicate Tells(u: Upload, v: Upload) {
    u.bytesDone <= v.bytesDone && v.bytesTotal == u.bytesTotal &&
    ((v.progress == u.progress && v.bytesDone == u.bytesDone) ||
     v.progress == u.progress + [Progress(v.bytesDone, u.bytesTotal)])
  }

  lemma StepTells(source: Source, start: nat, u: Upload, e: Event)
    requires Conserves(source, start, u) && Enabled(u, e)
    ensures Tells(u, Step(u, e))
    ensures Step(u, e).dev.sequential == u.dev.sequential
    ensures !u.dev.sequential ==> Step(u, e).dev.content == u.dev.content
  {
    match e
    case Written(n, r) => assert !u.source.Array?;
    case _ =>
  }

  lemma ToldInOrder(u: Upload, v: Upload)
    requires Reports(u) && Tells(u, v)
    ensures Reports(v)
    ensures forall total :: Bounded(u.progress, total) && u.bytesTotal == total && v.bytesDone <= total
              ==> Bounded(v.progress, total)
  {
  }

  lemma StepReports(source: Source, start: nat, u: Upload, e: Event)
    requires Conserves(source, start, u) && Enabled(u, e) && Reports(u)
    ensures Reports(Step(u, e)) && Step(u, e).bytesTotal == u.bytesTotal
    ensures Step(u, e).dev.sequential == u.dev.sequential
    ensures !u.dev.sequential ==> Step(u, e).dev.content == u.dev.content
    ensures Bounded(u.progress, u.bytesTotal) && Step(u, e).bytesDone <= u.bytesTotal ==>
              Bounded(Step(u, e).progress, u.bytesTotal)
  {
    StepTells(source, start, u, e);
    ToldInOrder(u, Step(u, e));
  }

  lemma BoundStep(source: Source, start: nat, u: Upload, e: Event, total: nat)
    requires Conserves(source, start, u) && Enabled(u, e) && Reports(u)
    requires Bounded(u.progress, total) && u.bytesTotal == total
    requires source.Array? || !u.dev.sequential
    requires total == if source.Array? then |source.bytes| else |u.dev.content|
    ensures Bounded(Step(u, e).progress, total)
  {
    StepKeeps(source, start, u, e);
    StepReports(source, start, u, e);
    var v := Step(u, e);
    assert v.bytesDone <= |v.sent| <= total;
  }

  lemma {:induction false} RunKeeps(source: Source, start: nat, u: Upload, es: seq<Event>, total: nat)
    requires Conserves(source, start, u) && Possible(u, es) && Reports(u)
    requires u.bytesTotal == total
    requires source.Array? || !u.dev.sequential ==>
               Bounded(u.progress, total) &&
               total == if source.Array? then |source.bytes| else |u.dev.content|
    ensures Conserves(source, start, Run(u, es)) && Reports(Run(u, es))
    ensures source.Array? || !u.dev.sequential ==> Bounded(Run(u, es).progress, total)
    ensures Run(u, es).dev.sequential == u.dev.sequential
    ensures !u.dev.sequential ==> Run(u, es).dev.content == u.dev.content
    decreases |es|
  {
    if es != [] {
      StepKeeps(source, start, u, es[0]);
      StepReports(source, start, u, es[0]);
      if source.Array? || !u.dev.sequential {
        BoundStep(source, start, u, es[0], total);
      }
      RunKeeps(source, start, Step(u, es[0]), es[1..], total);
    }
  }

  /** However the device is read and the socket drains, what was sent is the front of what is
      to be sent, in order; it is all of it when the end of an array or a file closed the
      socket; and progress is told in increasing amounts, the last being what has left the socket,
      for a file or an array never more than the total. */
  lemma UploadConserves(source: Source, dev: Dev, stale: bool, es: seq<Event>)
    requires !source.Cleared? && dev.pos <= |dev.content| && Possible(Begin(source, dev, stale), es)
    ensures var u := Run(Begin(source, dev, stale), es);
            dev.pos <= |u.dev.content| &&
            u.sent <= Whole(source, dev.pos, u) &&
            (u.ended && !u.failed && (source.Array? || !dev.sequential) ==>
              u.sent == Whole(source, dev.pos, u)) &&
            u.bytesDone == u.flushed <= |u.sent| &&
            InOrder(u.progress) && u.progress != [] && u.progress[|u.progress| - 1].done == u.flushed &&
            u.bytesTotal == (if source.Array? then |source.bytes| else if dev.sequential then 0 else |dev.content|) &&
            (source.Array? || !dev.sequential ==> Bounded(u.progress, u.bytesTotal))
  {
    var b := Begin(source, dev, stale);
    RunKeeps(source, dev.pos, b, es, b.bytesTotal);
    RunTotal(source, dev.pos, b, es);
    var u := Run(b, es);
    if source.Device? {
      assert u.dev.content[dev.pos..][..u.dev.pos - dev.pos] == u.dev.content[dev.pos..u.dev.pos];
    }
  }

  lemma {:induction false} RunTotal(source: Source, start: nat, u: Upload, es: seq<Event>)
    requires Conserves(source, start, u) && Possible(u, es) && Reports(u)
    ensures Run(u, es).bytesTotal == u.bytesTotal
    decreases |es|
  {
    if es != [] {
      StepKeeps(source, start, u, es[0]);
      StepReports(source, start, u, es[0]);
      RunTotal(source, start, Step(u, es[0]), es[1..]);
    }
  }

  // -------------------------------------------------------------------------------- progress

  /** Between two events of an upload from a file that has started: there is something to
      flush, and the flush will read on. */
  predicate Lively(u: Upload) {
    u.source.Device? && !u.dev.sequential && u.link.Open? && u.sent != [] ==>
      u.callWriteData && u.flushed < |u.sent|
  }

  lemma StepLively(source: Source, start: nat, u: Upload, e: Event)
    requires Conserves(source, start, u) && Enabled(u, e) && Lively(u)
    ensures Lively(Step(u, e))
  {
  }

  /** What is left of the upload. */
  function Left(u: Upload): nat
    requires u.dev.pos <= |u.dev.content|
  {
    if u.source.Device? then |u.dev.content| - u.dev.pos + 1 else 0
  }

  /** A started upload from a file never stalls: some bytes are still to be flushed, and every
      flush reads on or ends it. So it ends within as many flushes as bytes are left, and one. */
  lemma UploadNeverStalls(dev: Dev, stale: bool, es: seq<Event>, n: nat, r: Read)
    requires dev.pos <= |dev.content| && !dev.sequential && Possible(Begin(Device, dev, stale), es)
    requires Run(Begin(Device, dev, stale), es).source.Device?
    requires Run(Begin(Device, dev, stale), es).link.Open?
    requires Run(Begin(Device, dev, stale), es).sent != []
    ensures var u := Run(Begin(Device, dev, stale), es);
            u.flushed < |u.sent| && u.dev.pos <= |u.dev.content| &&
            (Enabled(u, Written(n, r)) ==>
              Step(u, Written(n, r)).dev.pos <= |u.dev.content| &&
              Step(u, Written(n, r)).dev.content == u.dev.content &&
              Left(Step(u, Written(n, r))) < Left(u))
  {
    var b := Begin(Device, dev, stale);
    RunKeeps(Device, dev.pos, b, es, b.bytesTotal);
    RunLively(Device, dev.pos, b, es);
    var u := Run(b, es);
    if Enabled(u, Written(n, r)) {
      StepKeeps(Device, dev.pos, u, Written(n, r));
      assert u.callWriteData;
    }
  }

  lemma {:induction false} RunLively(source: Source, start: nat, u: Upload, es: seq<Event>)
    requires Conserves(source, start, u) && Possible(u, es) && Lively(u)
    ensures Lively(Run(u, es))
    decreases |es|
  {
    if es != [] {
      StepKeeps(source, start, u, es[0]);
      StepLively(source, start, u, es[0]);
      RunLively(source, start, Step(u, es[0]), es[1..]);
    }
  }

  predicate WithinTotal(u: Upload) { Bounded(u.progress, u.bytesTotal) }

  /** A byte arrives at the device, is read and leaves: it is reported, and no total allows for it. */
  lemma FirstByteExceeds(dev: Dev, stale: bool) returns (es: seq<Event>)
    requires dev.pos <= |dev.content| && dev.sequential
    ensures Possible(Begin(Device, dev, stale), es) && !WithinTotal(Run(Begin(Device, dev, stale), es))
  {
    var b := Begin(Device, dev, stale);
    var e1, e2, e3 := Connected, Arrives([0], Got(1)), Written(1, Got(0));
    var u1 := Step(b, e1);
    var u2 := Step(u1, e2);
    var u3 := Step(u2, e3);
    assert Possible(u3, []) && Possible(u2, [e3]) && Possible(u1, [e2, e3]) && Possible(b, [e1, e2, e3]);
    assert Run(b, [e1, e2, e3]) == Run(u1, [e2, e3]) == Run(u2, [e3]) == Run(u3, []);
    assert u3.progress[|u3.progress| - 1] == Progress(1, 0);
    es := [e1, e2, e3];
  }

  /** When the reported progress keeps to the total, in all runs: exactly for arrays and for devices
      that are not sequential. For a sequential device the total is 0. */
  lemma StreamExceedsTotal(source: Source, dev: Dev, stale: bool)
    requires !source.Cleared? && dev.pos <= |dev.content|
    ensures (forall es :: Possible(Begin(source, dev, stale), es) ==>
               WithinTotal(Run(Begin(source, dev, stale), es))) <==>
            source.Array? || !dev.sequential
  {
    if source.Array? || !dev.sequential {
      forall es | Possible(Begin(source, dev, stale), es)
        ensures WithinTotal(Run(Begin(source, dev, stale), es))
      {
        UploadConserves(source, dev, stale, es);
      }
    } else {
      var es := FirstByteExceeds(dev, stale);
    }
  }
}
