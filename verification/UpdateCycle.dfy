/**
 The update cycle of DownloadManager: first the control files, then the files that the
 manifests name and that are missing; each is looked up on the server, then downloaded piece by
 piece into its staged file; at the end the local revision may be set to that of the server.
 */
module UpdateCycle {
  import opened UpdateStore

  datatype Phase = Idle | Looking | Between | Fetching(file: Info)

  /** `content` is contentFiles(), `lookups` mFtpContentFiles, `files` mContentFiles. The pieces
      of the current download, the entries the server did not list, those downloaded in this half
      of the cycle, and all that the manifests listed and that was missing are kept for the
      record. */
  datatype Cycle = Cycle(
    store: Store, phase: Phase, revision: bool, content: seq<Info>, lookups: seq<Info>, files: seq<Info>,
    timedOut: bool, full: bool, chunks: seq<Bytes>, skipped: set<Info>, done: set<Info>,
    missing: seq<Info>, revLocal: int, revServer: int)

  const CONTROL_FILES: seq<Info> := [
    Info(Revision, "command", "command"), Info(Revision, "chanels", "chanels"),
    Info(Revision, "cron.d", "adverttable"), Info(Revision, "timetable", "timetable"),
    Info(Revision, "timetable", "vtimetable")]

  /** setRevision: the directories of the control files are emptied, and with the first of them
      goes the storage of their states. */
  function Cleared(s: Store): Store {
    s.(staged := map i | i in s.staged && !i.kind.Revision? :: s.staged[i], rev := map[])
  }

  function Lookup(c: Cycle, store: Store, revision: bool, missing: seq<Info>, order: seq<Info>): Cycle {
    c.(store := store, phase := Looking, revision := revision, content := order, lookups := order, files := [],
       skipped := {}, done := {}, missing := missing)
  }

  /** The entries that are missing, after both manifests were read. */
  function Missing(s: Store, adverts: seq<Info>, music: seq<Info>): Listing {
    Collect(Collect(Listing(s, []), adverts), music)
  }

  function Append(s: Store, i: Info, chunk: Bytes): Store {
    s.(staged := s.staged[i := (if i in s.staged then s.staged[i] else []) + chunk])
  }

  function FileSize(s: Store, i: Info): nat { if i in s.staged then |s.staged[i]| else 0 }

  /** downloadFinished. */
  function Finished(c: Cycle, noError: bool): Cycle
    requires c.phase.Fetching?
  {
    var e := c.phase.file;
    var there := e in c.store.staged;
    var good := there && !c.timedOut && noError;
    var whole := there && !c.revision && c.full;
    var s := c.store;
    if c.revision
    then c.(phase := Between, store := s.(rev := s.rev[e.name := if good then DownloadOk else DownloadFail]),
            done := if good then c.done + {e} else c.done)
    else if good || whole
    then c.(phase := Between, store := s.(trusted := s.trusted + {KeyOf(e)}), done := c.done + {e})
    else c.(phase := Between)
  }

  function CheckRevision(c: Cycle): bool { c.revServer > 0 && c.revLocal != c.revServer }

  /** The end of nextDownload; what syncContent leaves behind is `after`. */
  function Concluded(c: Cycle, after: Store): Cycle {
    c.(phase := Idle, store := after,
       revLocal := if CheckAll(c.store, c.content).ok && CheckRevision(c) then c.revServer else c.revLocal)
  }

  datatype Event =
    | Start(order: seq<Info>)
    | Listed | NotListed | GiveUp
    | StartContent(adverts: seq<Info>, music: seq<Info>, order: seq<Info>)
    | NextDownload
    | Chunk(bytes: Bytes) | Progressed(received: int, total: int) | TimedOut | Finish(noError: bool)
    | Conclude(after: Store)
    | Server(rev: int)

  predicate AllOf(infos: seq<Info>, kind: Kind) { forall i :: 0 <= i < |infos| ==> infos[i].kind == kind }

  /** nextDownload runs when all files were looked up, and after each download. */
  predicate Free(c: Cycle) { c.phase == Between || (c.phase == Looking && c.lookups == []) }

  /** A manifest is read if its control file was downloaded in this cycle. */
  predicate Readable(s: Store, manifest: string) { manifest in s.rev && s.rev[manifest] == DownloadOk }

  predicate Enabled(c: Cycle, e: Event) {
    match e
    case Start(order) => c.phase == Idle && ValuesOf(ByName(CONTROL_FILES), order)
    case Listed => c.phase == Looking && c.lookups != []
    case NotListed => c.phase == Looking && c.lookups != []
    case GiveUp => c.phase == Looking
    case StartContent(adverts, music, order) =>
      Free(c) && c.files == [] && c.revision &&
      AllOf(adverts, Advert) && AllOf(music, Music) &&
      (adverts != [] ==> Readable(c.store, "adverttable")) && (music != [] ==> Readable(c.store, "chanels")) &&
      ValuesOf(ByName(Missing(c.store, adverts, music).missing), order)
    case NextDownload => Free(c) && c.files != []
    case Chunk(_) => c.phase.Fetching?
    case Progressed(_, _) => c.phase.Fetching?
    case TimedOut => c.phase.Fetching?
    case Finish(_) => c.phase.Fetching?
    case Conclude(_) => Free(c) && c.files == [] && !c.revision
    case Server(_) => true
  }

  function Step(c: Cycle, e: Event): Cycle
    requires Enabled(c, e)
  {
    match e
    case Start(order) => Lookup(c, Cleared(c.store), true, CONTROL_FILES, order)
    case Listed => c.(files := c.files + [c.lookups[0]], lookups := c.lookups[1..])
    case NotListed => c.(skipped := c.skipped + {c.lookups[0]}, lookups := c.lookups[1..])
    case GiveUp => c.(phase := Idle)
    case StartContent(adverts, music, order) =>
      var l := Missing(c.store, adverts, music);
      Lookup(c, l.store, false, l.missing, order)
    case NextDownload =>
      c.(phase := Fetching(c.files[0]), files := c.files[1..], timedOut := false, full := false, chunks := [])
    case Chunk(bytes) => c.(store := Append(c.store, c.phase.file, bytes), chunks := c.chunks + [bytes])
    case Progressed(received, total) =>
      if !c.revision && received >= total && received > 0 && total != -1 &&
         FileSize(c.store, c.phase.file) == received
      then c.(full := true) else c
    case TimedOut => c.(timedOut := true)
    case Finish(noError) => Finished(c, noError)
    case Conclude(after) => Concluded(c, after)
    case Server(rev) => c.(revServer := rev)
  }

  predicate Possible(c: Cycle, es: seq<Event>)
    decreases |es|
  {
    es == [] || (Enabled(c, es[0]) && Possible(Step(c, es[0]), es[1..]))
  }

  function Run(c: Cycle, es: seq<Event>): Cycle
    requires Possible(c, es)
    decreases |es|
  {
    if es == [] then c else Run(Step(c, es[0]), es[1..])
  }

  // ------------------------------------------------------------------------------ invariants

  function Concat(chunks: seq<Bytes>): Bytes {
    if chunks == [] then [] else Concat(chunks[..|chunks| - 1]) + chunks[|chunks| - 1]
  }

  /** The files still to be looked up or downloaded. */
  function Ahead(c: Cycle): seq<Info> { c.files + c.lookups }

  predicate Apart(c: Cycle) {
    var a := Ahead(c);
    DistinctNames(c.content) && DistinctNames(a) &&
    (forall i :: 0 <= i < |a| ==> a[i] in c.content && a[i] !in c.done && a[i] !in c.skipped) &&
    (forall i :: i in c.done ==> i in c.content && i !in c.skipped) &&
    (c.phase.Fetching? ==>
      c.phase.file in c.content && c.phase.file !in c.done && c.phase.file !in c.skipped && c.phase.file !in a)
  }

  predicate Clean(c: Cycle) {
    forall i :: 0 <= i < |Ahead(c)| && !Ahead(c)[i].kind.Music? ==> Ahead(c)[i] !in c.store.staged
  }

  /** The staged file of the current download is what it has delivered. */
  predicate Exact(c: Cycle) {
    c.phase.Fetching? && !c.phase.file.kind.Music? ==>
      if c.chunks == [] then c.phase.file !in c.store.staged
      else c.phase.file in c.store.staged && c.store.staged[c.phase.file] == Concat(c.chunks)
  }

  predicate TrustIsDone(c: Cycle) {
    !c.revision ==>
      forall i :: 0 <= i < |c.content| ==> (KeyOf(c.content[i]) in c.store.trusted <==> c.content[i] in c.done)
  }

  predicate Kinds(c: Cycle) {
    forall i :: 0 <= i < |c.content| ==> (c.content[i].kind.Revision? <==> c.revision)
  }

  predicate Inv(c: Cycle) {
    c.phase != Idle ==>
      Apart(c) && Clean(c) && Exact(c) && TrustIsDone(c) && Kinds(c) && ValuesOf(ByName(c.missing), c.content)
  }

  lemma ContentIsMissing(c: Cycle, adverts: seq<Info>, music: seq<Info>, order: seq<Info>)
    requires Enabled(c, StartContent(adverts, music, order))
    ensures var l := Missing(c.store, adverts, music);
            Accounts(l) && forall i :: 0 <= i < |order| ==> order[i] in l.missing && !order[i].kind.Revision?
  {
    var l1 := Collect(Listing(c.store, []), adverts);
    var l := Missing(c.store, adverts, music);
    CollectAccounts(Listing(c.store, []), adverts);
    CollectAccounts(l1, music);
    ByNameHas(l.missing);
    forall i | 0 <= i < |order| ensures order[i] in l.missing && !order[i].kind.Revision? {
      CollectMisses(l1, music, order[i]);
      CollectMisses(Listing(c.store, []), adverts, order[i]);
    }
  }

  lemma StartContentKeeps(c: Cycle, adverts: seq<Info>, music: seq<Info>, order: seq<Info>)
    requires Enabled(c, StartContent(adverts, music, order))
    ensures Inv(Step(c, StartContent(adverts, music, order)))
  {
    ContentIsMissing(c, adverts, music, order);
    var r := Step(c, StartContent(adverts, music, order));
    var l := Missing(c.store, adverts, music);
    forall i | 0 <= i < |order|
      ensures KeyOf(order[i]) !in r.store.trusted && (!order[i].kind.Music? ==> order[i] !in r.store.staged)
    {
      assert order[i] in l.missing;
      var j :| 0 <= j < |l.missing| && l.missing[j] == order[i];
    }
    assert Ahead(r) == order;
  }

  lemma ControlFilesAreControl()
    ensures forall i :: 0 <= i < |CONTROL_FILES| ==> CONTROL_FILES[i].kind.Revision?
  {
  }

  lemma StartKeeps(c: Cycle, order: seq<Info>)
    requires Enabled(c, Start(order))
    ensures Inv(Step(c, Start(order)))
  {
    var files := CONTROL_FILES;
    ControlFilesAreControl();
    ByNameHas(files);
    forall i | 0 <= i < |order| ensures order[i].kind.Revision? {
      assert order[i] in files;
    }
    assert Ahead(Step(c, Start(order))) == order;
  }

  lemma WithoutOne(a: seq<Info>, n: nat)
    requires n < |a| && DistinctNames(a)
    ensures var b := a[..n] + a[n + 1..];
            DistinctNames(b) && forall i :: 0 <= i < |b| ==> b[i] in a && b[i] != a[n]
  {
    var b := a[..n] + a[n + 1..];
    forall i | 0 <= i < |b| ensures b[i] in a && b[i] != a[n] {
      var k := if i < n then i else i + 1;
      assert b[i] == a[k];
      assert k < n ==> a[k].name != a[n].name;
      assert n < k ==> a[n].name != a[k].name;
    }
    forall i, j | 0 <= i < j < |b| ensures b[i].name != b[j].name {
      var k, m := if i < n then i else i + 1, if j < n then j else j + 1;
      assert b[i] == a[k] && b[j] == a[m] && k < m;
    }
  }

  lemma ListedKeeps(c: Cycle)
    requires Inv(c) && Enabled(c, Listed)
    ensures Inv(Step(c, Listed))
  {
    assert Ahead(Step(c, Listed)) == Ahead(c);
  }

  lemma NotListedKeeps(c: Cycle)
    requires Inv(c) && Enabled(c, NotListed)
    ensures Inv(Step(c, NotListed))
  {
    var a, n := Ahead(c), |c.files|;
    WithoutOne(a, n);
    assert Ahead(Step(c, NotListed)) == a[..n] + a[n + 1..];
    assert a[n] == c.lookups[0];
  }

  lemma NextKeeps(c: Cycle)
    requires Inv(c) && Enabled(c, NextDownload)
    ensures Inv(Step(c, NextDownload))
  {
    var a, r := Ahead(c), Step(c, NextDownload);
    assert a == [c.files[0]] + Ahead(r);
    assert a[0] == c.files[0];
    forall i | 0 <= i < |Ahead(r)| ensures Ahead(r)[i] == a[i + 1] {
    }
  }

  lemma ChunkKeeps(c: Cycle, bytes: Bytes)
    requires Inv(c) && Enabled(c, Chunk(bytes))
    ensures Inv(Step(c, Chunk(bytes)))
  {
    var r := Step(c, Chunk(bytes));
    assert r.chunks[..|r.chunks| - 1] == c.chunks;
  }

  /** Files of different names have different trust bits. */
  lemma OwnKey(content: seq<Info>, e: Info)
    requires DistinctNames(content) && e in content
    ensures forall i :: 0 <= i < |content| ==> (KeyOf(content[i]) == KeyOf(e) <==> content[i] == e)
  {
    var j :| 0 <= j < |content| && content[j] == e;
    forall i | 0 <= i < |content| ensures KeyOf(content[i]) == KeyOf(e) <==> content[i] == e {
      assert i < j ==> content[i].name != content[j].name;
      assert j < i ==> content[j].name != content[i].name;
    }
  }

  lemma FinishKeeps(c: Cycle, noError: bool)
    requires Inv(c) && Enabled(c, Finish(noError))
    ensures Inv(Step(c, Finish(noError)))
  {
    FinishExact(c, noError);
    FinishTrusts(c, noError);
  }

  lemma FinishExact(c: Cycle, noError: bool)
    requires Inv(c) && Enabled(c, Finish(noError))
    ensures var d := Step(c, Finish(noError)); Apart(d) && Clean(d) && Exact(d)
  {
    assert Ahead(Step(c, Finish(noError))) == Ahead(c);
  }

  lemma FinishTrusts(c: Cycle, noError: bool)
    requires Inv(c) && Enabled(c, Finish(noError))
    ensures TrustIsDone(Step(c, Finish(noError)))
  {
    OwnKey(c.content, c.phase.file);
  }

  lemma StepKeeps(c: Cycle, e: Event)
    requires Inv(c) && Enabled(c, e)
    ensures Inv(Step(c, e))
  {
    match e
    case Start(order) => StartKeeps(c, order);
    case Listed => ListedKeeps(c);
    case NotListed => NotListedKeeps(c);
    case StartContent(adverts, music, order) => StartContentKeeps(c, adverts, music, order);
    case NextDownload => NextKeeps(c);
    case Chunk(bytes) => ChunkKeeps(c, bytes);
    case Finish(noError) => FinishKeeps(c, noError);
    case _ => assert Ahead(Step(c, e)) == Ahead(c);
  }

  lemma {:induction false} RunKeeps(c: Cycle, es: seq<Event>)
    requires Inv(c) && Possible(c, es)
    ensures Inv(Run(c, es))
    decreases |es|
  {
    if es != [] {
      StepKeeps(c, es[0]);
      RunKeeps(Step(c, es[0]), es[1..]);
    }
  }

  // -------------------------------------------------------------------------------- theorems

  predicate AllDone(c: Cycle) { forall i :: 0 <= i < |c.content| ==> c.content[i] in c.done }

  predicate NoneLeft(c: Cycle) { forall e :: e in c.missing ==> e in c.done }

  predicate NamesApart(infos: seq<Info>) {
    forall d, e :: d in infos && e in infos && d.name == e.name ==> d == e
  }

  /** All files that are looked up were downloaded; these are all that were missing if and only if
      no two of the missing ones share a name. */
  lemma DoneIsComplete(c: Cycle)
    requires Apart(c) && ValuesOf(ByName(c.missing), c.content)
    ensures AllDone(c) ==> (NoneLeft(c) <==> NamesApart(c.missing))
    ensures NamesApart(c.missing) ==> (AllDone(c) <==> NoneLeft(c))
  {
    SameNamesHide(c.missing, c.content);
    ByNameHas(c.missing);
    if NoneLeft(c) {
      forall i | 0 <= i < |c.content| ensures c.content[i] in c.done {
        assert c.content[i] in c.missing;
      }
    }
    if AllDone(c) {
      forall e | e in c.content ensures e in c.done {
        var i :| 0 <= i < |c.content| && c.content[i] == e;
      }
    }
  }

  predicate Advances(c: Cycle, e: Event)
    requires Enabled(c, e)
  {
    Step(c, e).revLocal != c.revLocal
  }

  lemma AdvanceRule(c: Cycle, e: Event)
    requires Inv(c) && Enabled(c, e)
    ensures Advances(c, e) <==>
              e.Conclude? && AllDone(c) && c.revServer > 0 && c.revLocal != c.revServer
    ensures Advances(c, e) ==> Step(c, e).revLocal == c.revServer
  {
    CheckAllIsTrust(c.store, c.content);
  }

  /** The rule for the revision, in terms of what the cycle has recorded. */
  lemma AdvancesOnRecord(c: Cycle, es: seq<Event>, e: Event)
    requires c.phase == Idle && Possible(c, es) && Enabled(Run(c, es), e)
    ensures var s := Run(c, es);
            Advances(s, e) ==> e.Conclude? && Step(s, e).revLocal == s.revServer > 0
    ensures var s := Run(c, es);
            NamesApart(s.missing) ==>
              (Advances(s, e) <==>
                 e.Conclude? && NoneLeft(s) && s.revServer > 0 && s.revLocal != s.revServer)
    ensures var s := Run(c, es);
            !NamesApart(s.missing) && Advances(s, e) ==> !NoneLeft(s)
  {
    RunKeeps(c, es);
    var s := Run(c, es);
    AdvanceRule(s, e);
    if e.Conclude? {
      DoneIsComplete(s);
    }
  }

  /** A file that the server did not list keeps the revision back. */
  lemma SkippedFileBlocks(c: Cycle, es: seq<Event>, after: Store, i: Info)
    requires c.phase == Idle && Possible(c, es) && Enabled(Run(c, es), Conclude(after))
    requires i in Run(c, es).skipped && i in Run(c, es).content
    ensures Step(Run(c, es), Conclude(after)).revLocal == Run(c, es).revLocal
  {
    RunKeeps(c, es);
    AdvanceRule(Run(c, es), Conclude(after));
  }

  // ------------------------------------------------------------------- manifests not read

  predicate Unread(s: Store) { !Readable(s, "adverttable") && !Readable(s, "chanels") }

  /** The revision follows also when neither manifest could be read: the second half of the
      cycle is empty then, however it is begun, and it ends at once. */
  lemma UnreadManifestsAdvance(c: Cycle, es: seq<Event>, e: Event, after: Store)
    requires c.phase == Idle && Possible(c, es) && Enabled(Run(c, es), e) && e.StartContent?
    requires Unread(Run(c, es).store)
    ensures var d := Step(Run(c, es), e);
            && e == StartContent([], [], []) && d.content == [] && d.store == Run(c, es).store
            && Enabled(d, Conclude(after))
            && (d.revServer > 0 ==> Step(d, Conclude(after)).revLocal == d.revServer)
  {
    assert Missing(Run(c, es).store, [], []) == Listing(Run(c, es).store, []);
    assert e.adverts == [] && e.music == [];
    NoValues(e.order);
  }

  function FirstName(infos: seq<Info>): string { if infos == [] then "" else infos[0].name }

  lemma NoValues(infos: seq<Info>)
    requires ValuesOf(ByName([]), infos)
    ensures infos == []
  {
    assert FirstName(infos) !in ByName([]);
  }

  lemma {:induction false} OwnValues(infos: seq<Info>)
    requires DistinctNames(infos)
    ensures ValuesOf(ByName(infos), infos)
    decreases |infos|
  {
    if infos != [] {
      var front, last := infos[..|infos| - 1], infos[|infos| - 1];
      OwnValues(front);
      ByNameHas(front);
      forall i | 0 <= i < |infos| ensures infos[i].name in ByName(infos) && ByName(infos)[infos[i].name] == infos[i] {
        if i < |infos| - 1 {
          assert front[i] == infos[i] && infos[i].name != last.name;
        }
      }
    }
  }

  lemma {:induction false} AppendEvents(c: Cycle, es: seq<Event>, e: Event)
    requires Possible(c, es) && Enabled(Run(c, es), e)
    ensures Possible(c, es + [e]) && Run(c, es + [e]) == Step(Run(c, es), e)
    decreases |es|
  {
    if es == [] {
      assert es + [e] == [e] && [e][1..] == [];
      assert Possible(Step(c, e), []);
    } else {
      assert (es + [e])[0] == es[0] && (es + [e])[1..] == es[1..] + [e];
      AppendEvents(Step(c, es[0]), es[1..], e);
    }
  }

  /** The server lists none of the files that are looked up. */
  lemma {:induction false} ListsNothing(c: Cycle) returns (es: seq<Event>)
    requires c.phase == Looking
    ensures Possible(c, es)
    ensures var d := Run(c, es);
            d == c.(lookups := [], skipped := d.skipped)
    decreases |c.lookups|
  {
    if c.lookups == [] {
      es := [];
    } else {
      var rest := ListsNothing(Step(c, NotListed));
      es := [NotListed] + rest;
      assert es[1..] == rest;
    }
  }

  /** Such a cycle: the server lists none of the control files, nothing at all is downloaded, and
      the revision of the server becomes the local one. */
  lemma NothingReadAdvances(c: Cycle, after: Store) returns (es: seq<Event>)
    requires c.phase == Idle && c.revServer > 0
    ensures Possible(c, es)
    ensures var d := Run(c, es); d.phase == Idle && d.done == {} && d.revLocal == c.revServer
  {
    assert DistinctNames(CONTROL_FILES);
    OwnValues(CONTROL_FILES);
    var c1 := Step(c, Start(CONTROL_FILES));
    var rest := ListsNothing(c1);
    es := [Start(CONTROL_FILES)] + rest;
    assert es[1..] == rest;
    var d := Run(c, es);
    assert Missing(d.store, [], []) == Listing(d.store, []);
    var e := StartContent([], [], []);
    AppendEvents(c, es, e);
    UnreadManifestsAdvance(c, es, e, after);
    AppendEvents(c, es + [e], Conclude(after));
    es := es + [e] + [Conclude(after)];
  }
}
