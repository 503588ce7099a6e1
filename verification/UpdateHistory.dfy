/**
 What the update cycle does, told from its events alone: what makes a downloaded file trusted, and
 when the local revision may follow the server's.
 */
module UpdateHistory {
  import opened UpdateStore
  import opened UpdateCycle

  function Front(es: seq<Event>): seq<Event> requires es != [] { es[..|es| - 1] }
  function Last(es: seq<Event>): Event requires es != [] { es[|es| - 1] }

  lemma {:induction false} PrefixRuns(c: Cycle, es: seq<Event>, k: nat)
    requires Possible(c, es) && k <= |es|
    ensures Possible(c, es[..k]) && Possible(Run(c, es[..k]), es[k..])
    ensures Run(c, es) == Run(Run(c, es[..k]), es[k..])
    decreases k
  {
    if k == 0 {
      assert es[..0] == [] && es[0..] == es;
    } else {
      PrefixRuns(Step(c, es[0]), es[1..], k - 1);
      assert es[..k][0] == es[0] && es[..k][1..] == es[1..][..k - 1] && es[1..][k - 1..] == es[k..];
    }
  }

  lemma LastStep(c: Cycle, es: seq<Event>)
    requires Possible(c, es) && es != []
    ensures Possible(c, Front(es)) && Enabled(Run(c, Front(es)), Last(es))
    ensures Run(c, es) == Step(Run(c, Front(es)), Last(es))
  {
    var k := |es| - 1;
    PrefixRuns(c, es, k);
    assert es[k..] == [Last(es)] && [Last(es)][1..] == [];
  }

  /** The state before event number k. */
  ghost function Before(c: Cycle, es: seq<Event>, k: nat): Cycle
    requires Possible(c, es) && k <= |es|
  {
    PrefixRuns(c, es, k);
    Run(c, es[..k])
  }

  lemma BeforeFront(c: Cycle, es: seq<Event>, k: nat)
    requires Possible(c, es) && es != [] && k < |es|
    ensures Possible(c, Front(es)) && Before(c, es, k) == Before(c, Front(es), k)
    ensures Front(es)[..k] == es[..k]
  {
    LastStep(c, es);
    assert Front(es)[..k] == es[..k];
  }

  // -------------------------------------------------------------------------- one download

  /** Where the current download began. */
  function LastNext(es: seq<Event>): (n: int)
    ensures -1 <= n < |es|
    ensures n >= 0 ==> es[n].NextDownload?
    ensures forall k :: n < k < |es| ==> !es[k].NextDownload?
    decreases |es|
  {
    if es == [] then -1 else if Last(es).NextDownload? then |es| - 1 else LastNext(Front(es))
  }

  /** What has been delivered since. */
  function Delivered(es: seq<Event>): Bytes
    decreases |es|
  {
    if es == [] then []
    else
      match Last(es)
      case NextDownload => []
      case Chunk(bytes) => Delivered(Front(es)) + bytes
      case _ => Delivered(Front(es))
  }

  predicate TimedOutSince(es: seq<Event>) { exists k :: LastNext(es) < k < |es| && es[k].TimedOut? }

  /** Event k tells that as many bytes were received as the server has, and the staged file has
      just that size. */
  ghost predicate FullAt(c: Cycle, es: seq<Event>, k: nat)
    requires Possible(c, es) && k < |es|
  {
    var s := Before(c, es, k);
    && es[k].Progressed? && s.phase.Fetching? && s.phase.file in s.store.staged
    && es[k].received >= es[k].total && es[k].received > 0 && es[k].total != -1
    && |s.store.staged[s.phase.file]| == es[k].received
  }

  ghost predicate FullSince(c: Cycle, es: seq<Event>)
    requires Possible(c, es)
  {
    exists k: nat :: LastNext(es) < k < |es| && FullAt(c, es, k)
  }

  /** The flags and the record of the download agree with the events. */
  ghost predicate Agrees(c: Cycle, es: seq<Event>)
    requires Possible(c, es)
  {
    var s := Run(c, es);
    s.phase.Fetching? ==>
      && LastNext(es) >= 0 && (s.timedOut <==> TimedOutSince(es)) && Concat(s.chunks) == Delivered(es)
      && (!s.revision ==> (s.full <==> FullSince(c, es)))
  }

  lemma {:induction false} Tracked(c: Cycle, es: seq<Event>)
    requires c.phase == Idle && Possible(c, es)
    ensures Agrees(c, es)
    decreases |es|
  {
    if es != [] {
      LastStep(c, es);
      Tracked(c, Front(es));
      if Last(es).NextDownload? {
        NextAgrees(c, es);
      } else if Run(c, es).phase.Fetching? {
        StepAgrees(c, es);
      }
    }
  }

  /** Nothing has come yet. */
  lemma NextAgrees(c: Cycle, es: seq<Event>)
    requires Possible(c, es) && es != [] && Last(es).NextDownload?
    ensures Agrees(c, es)
  {
    LastStep(c, es);
    assert LastNext(es) == |es| - 1;
  }

  lemma StepAgrees(c: Cycle, es: seq<Event>)
    requires Possible(c, es) && es != [] && !Last(es).NextDownload? && Run(c, es).phase.Fetching?
    requires Possible(c, Front(es)) && Agrees(c, Front(es))
    ensures Agrees(c, es)
  {
    LastStep(c, es);
    var s := Run(c, Front(es));
    FlagsNext(s, Last(es));
    TimedOutNext(es);
    FullNext(c, es);
    FullNow(c, es);
    ChunksNext(s, es);
  }

  /** What the progress that is reported says of the file. */
  predicate Reports(s: Cycle, e: Event) {
    && e.Progressed? && s.phase.Fetching? && s.phase.file in s.store.staged
    && e.received >= e.total && e.received > 0 && e.total != -1
    && |s.store.staged[s.phase.file]| == e.received
  }

  lemma FlagsNext(s: Cycle, e: Event)
    requires Enabled(s, e) && Step(s, e).phase.Fetching? && !e.NextDownload?
    ensures var r := Step(s, e);
            && s.phase == r.phase && r.revision == s.revision
            && (r.timedOut <==> s.timedOut || e.TimedOut?)
            && (!s.revision ==> (r.full <==> s.full || Reports(s, e)))
  {
  }

  lemma FullNow(c: Cycle, es: seq<Event>)
    requires Possible(c, es) && es != [] && Possible(c, Front(es))
    ensures FullAt(c, es, |es| - 1) <==> Reports(Run(c, Front(es)), Last(es))
  {
    assert es[..|es| - 1] == Front(es);
  }

  lemma ChunksNext(s: Cycle, es: seq<Event>)
    requires es != [] && s.phase.Fetching? && Enabled(s, Last(es)) && Step(s, Last(es)).phase.Fetching?
    requires Concat(s.chunks) == Delivered(Front(es)) && !Last(es).NextDownload?
    ensures Concat(Step(s, Last(es)).chunks) == Delivered(es)
  {
    if Last(es).Chunk? {
      var r := Step(s, Last(es));
      assert r.chunks[..|r.chunks| - 1] == s.chunks;
    }
  }

  lemma TimedOutNext(es: seq<Event>)
    requires es != [] && !Last(es).NextDownload?
    ensures TimedOutSince(es) <==> TimedOutSince(Front(es)) || Last(es).TimedOut?
  {
    var f, n := Front(es), LastNext(es);
    if TimedOutSince(es) {
      var k :| n < k < |es| && es[k].TimedOut?;
      assert k < |f| ==> f[k] == es[k];
    }
    if TimedOutSince(f) {
      var k :| n < k < |f| && f[k].TimedOut?;
      assert es[k] == f[k];
    }
    assert Last(es) == es[|es| - 1];
  }

  lemma FullFront(c: Cycle, es: seq<Event>, k: nat)
    requires Possible(c, es) && es != [] && k < |es| - 1
    ensures Possible(c, Front(es)) && (FullAt(c, es, k) <==> FullAt(c, Front(es), k))
  {
    BeforeFront(c, es, k);
    assert Front(es)[k] == es[k];
  }

  lemma FullNext(c: Cycle, es: seq<Event>)
    requires Possible(c, es) && es != [] && !Last(es).NextDownload?
    ensures Possible(c, Front(es))
    ensures FullSince(c, es) <==> FullSince(c, Front(es)) || FullAt(c, es, |es| - 1)
  {
    LastStep(c, es);
    if FullSince(c, es) {
      FullThen(c, es);
    }
    if FullSince(c, Front(es)) {
      FullStill(c, es);
    }
  }

  lemma FullThen(c: Cycle, es: seq<Event>)
    requires Possible(c, es) && es != [] && Possible(c, Front(es)) && LastNext(es) == LastNext(Front(es))
    requires FullSince(c, es)
    ensures FullSince(c, Front(es)) || FullAt(c, es, |es| - 1)
  {
    var k: nat :| LastNext(es) < k < |es| && FullAt(c, es, k);
    if k < |es| - 1 {
      FullFront(c, es, k);
    }
  }

  lemma FullStill(c: Cycle, es: seq<Event>)
    requires Possible(c, es) && es != [] && Possible(c, Front(es)) && LastNext(es) == LastNext(Front(es))
    requires FullSince(c, Front(es))
    ensures FullSince(c, es)
  {
    var k: nat :| LastNext(es) < k < |es| - 1 && FullAt(c, Front(es), k);
    FullFront(c, es, k);
  }

  /** The download that ends now delivered its file: without a timeout and an error, or, for content,
      with all bytes that the server has. */
  ghost predicate Succeeds(c: Cycle, es: seq<Event>, noError: bool)
    requires Possible(c, es) && Run(c, es).phase.Fetching?
  {
    var s := Run(c, es);
    s.phase.file in s.store.staged &&
    ((!TimedOutSince(es) && noError) || (!s.phase.file.kind.Revision? && FullSince(c, es)))
  }

  /** What the end of a download does to trust and states, over all runs: content that was delivered
      becomes trusted, and only it; a control file becomes DOWNLOAD_OK if it was, else DOWNLOAD_FAIL. */
  lemma TrustFollowsEvents(c: Cycle, es: seq<Event>, noError: bool)
    requires c.phase == Idle && Possible(c, es) && Enabled(Run(c, es), Finish(noError))
    ensures var s, r := Run(c, es), Step(Run(c, es), Finish(noError));
            var f := s.phase.file;
            && r.store.staged == s.store.staged && r.store.player == s.store.player
            && (f.kind.Revision? ==>
                  r.store.trusted == s.store.trusted &&
                  r.store.rev == s.store.rev[f.name := if Succeeds(c, es, noError) then DownloadOk else DownloadFail])
            && (!f.kind.Revision? ==>
                  r.store.rev == s.store.rev && KeyOf(f) !in s.store.trusted &&
                  r.store.trusted == s.store.trusted + if Succeeds(c, es, noError) then {KeyOf(f)} else {})
  {
    Tracked(c, es);
    RunKeeps(c, es);
    var s := Run(c, es);
    FetchedKind(s);
    FinishTells(s, noError, Succeeds(c, es, noError));
  }

  /** What the end of a download does to the stores and the record. */
  lemma FinishTells(s: Cycle, noError: bool, good: bool)
    requires s.phase.Fetching? && (s.phase.file.kind.Revision? <==> s.revision)
    requires good <==> s.phase.file in s.store.staged && ((!s.timedOut && noError) || (!s.revision && s.full))
    ensures var r, f := Step(s, Finish(noError)), s.phase.file;
            && r.store.staged == s.store.staged && r.store.player == s.store.player
            && r.done == s.done + (if good then {f} else {}) && r.missing == s.missing
            && (s.revision ==>
                  r.store.trusted == s.store.trusted &&
                  r.store.rev == s.store.rev[f.name := if good then DownloadOk else DownloadFail])
            && (!s.revision ==>
                  r.store.rev == s.store.rev &&
                  r.store.trusted == s.store.trusted + if good then {KeyOf(f)} else {})
  {
  }

  lemma FetchedKind(s: Cycle)
    requires Inv(s) && s.phase.Fetching?
    ensures s.phase.file.kind.Revision? <==> s.revision
    ensures !s.revision ==> KeyOf(s.phase.file) !in s.store.trusted
  {
    var i :| 0 <= i < |s.content| && s.content[i] == s.phase.file;
  }

  /** Nothing is left of earlier files: when the download of a control file or an advert ends, the
      staged file is what was delivered since it began, or there is none if nothing was. */
  lemma StagedIsDelivered(c: Cycle, es: seq<Event>, noError: bool)
    requires c.phase == Idle && Possible(c, es) && Enabled(Run(c, es), Finish(noError))
    requires !Run(c, es).phase.file.kind.Music?
    ensures var s, r := Run(c, es), Step(Run(c, es), Finish(noError));
            var f := s.phase.file;
            (f in r.store.staged ==> r.store.staged[f] == Delivered(es)) &&
            (f in r.store.staged <==> exists k :: LastNext(es) < k < |es| && es[k].Chunk?)
  {
    Tracked(c, es);
    RunKeeps(c, es);
    ChunksCame(c, es);
  }

  predicate ChunkSince(es: seq<Event>) { exists k :: LastNext(es) < k < |es| && es[k].Chunk? }

  lemma {:induction false} ChunksCame(c: Cycle, es: seq<Event>)
    requires c.phase == Idle && Possible(c, es)
    ensures Run(c, es).phase.Fetching? ==> (Run(c, es).chunks != [] <==> ChunkSince(es))
    decreases |es|
  {
    if es != [] {
      LastStep(c, es);
      ChunksCame(c, Front(es));
      if Run(c, es).phase.Fetching? && !Last(es).NextDownload? {
        ChunkNext(es);
      }
    }
  }

  lemma ChunkNext(es: seq<Event>)
    requires es != [] && !Last(es).NextDownload?
    ensures ChunkSince(es) <==> ChunkSince(Front(es)) || Last(es).Chunk?
  {
    var f, n := Front(es), LastNext(es);
    if ChunkSince(es) {
      var k :| n < k < |es| && es[k].Chunk?;
      assert k < |f| ==> f[k] == es[k];
    }
    if ChunkSince(f) {
      var k :| n < k < |f| && f[k].Chunk?;
      assert es[k] == f[k];
    }
    assert Last(es) == es[|es| - 1];
  }

  // ------------------------------------------------------------------------------- one cycle

  /** Where the second half of the cycle began, if it has. */
  function LastContent(es: seq<Event>): (m: int)
    ensures -1 <= m < |es|
    ensures m >= 0 ==> es[m].StartContent?
    ensures forall k :: 0 <= m < k < |es| ==> !es[k].StartContent? && !es[k].Start?
    decreases |es|
  {
    if es == [] || Last(es).Start? then -1
    else if Last(es).StartContent? then |es| - 1
    else LastContent(Front(es))
  }

  /** What the two manifests name and is neither trusted nor with the player. */
  predicate Wanted(s: Store, e: Event, i: Info)
    requires e.StartContent?
  {
    (i in e.adverts || i in e.music) && KeyOf(i) !in s.trusted && i !in s.player
  }

  /** Event k ends the download of i, and it was delivered. */
  ghost predicate Downloads(c: Cycle, es: seq<Event>, k: nat, i: Info)
    requires Possible(c, es) && k < |es|
  {
    PrefixRuns(c, es, k);
    es[k].Finish? && Before(c, es, k).phase == Fetching(i) && Succeeds(c, es[..k], es[k].noError)
  }

  ghost predicate Downloaded(c: Cycle, es: seq<Event>, i: Info)
    requires Possible(c, es)
  {
    exists k: nat :: LastContent(es) < k < |es| && Downloads(c, es, k, i)
  }

  ghost predicate WantedNow(c: Cycle, es: seq<Event>, i: Info)
    requires Possible(c, es)
  {
    var m := LastContent(es);
    m >= 0 && Wanted(Before(c, es, m).store, es[m], i)
  }

  ghost predicate Content(s: Cycle) { s.phase != Idle && !s.revision }

  /** The record that the cycle keeps of its second half agrees with the events. */
  ghost predicate Records(c: Cycle, es: seq<Event>)
    requires Possible(c, es)
  {
    var s := Run(c, es);
    && LastContent(es) >= 0
    && (forall i :: i in s.done <==> Downloaded(c, es, i))
    && (forall i :: i in s.missing <==> WantedNow(c, es, i))
  }

  lemma DownloadsFront(c: Cycle, es: seq<Event>, k: nat, i: Info)
    requires Possible(c, es) && es != [] && k < |es| - 1
    ensures Possible(c, Front(es)) && (Downloads(c, es, k, i) <==> Downloads(c, Front(es), k, i))
  {
    BeforeFront(c, es, k);
    PrefixRuns(c, es, k);
    assert Front(es)[k] == es[k];
  }

  lemma DownloadedNext(c: Cycle, es: seq<Event>, i: Info)
    requires Possible(c, es) && es != [] && !Last(es).Start? && !Last(es).StartContent?
    ensures Possible(c, Front(es))
    ensures Downloaded(c, es, i) <==> Downloaded(c, Front(es), i) || Downloads(c, es, |es| - 1, i)
  {
    LastStep(c, es);
    var f, m := Front(es), LastContent(es);
    if Downloaded(c, es, i) {
      var k: nat :| m < k < |es| && Downloads(c, es, k, i);
      if k < |f| {
        DownloadsFront(c, es, k, i);
      }
    }
    if Downloaded(c, f, i) {
      var k: nat :| m < k < |f| && Downloads(c, f, k, i);
      DownloadsFront(c, es, k, i);
    }
  }

  lemma WantedNext(c: Cycle, es: seq<Event>, i: Info)
    requires Possible(c, es) && es != [] && !Last(es).Start? && !Last(es).StartContent?
    ensures Possible(c, Front(es)) && (WantedNow(c, es, i) <==> WantedNow(c, Front(es), i))
  {
    LastStep(c, es);
    var m := LastContent(es);
    if m >= 0 {
      BeforeFront(c, es, m);
      assert Front(es)[m] == es[m];
    }
  }

  lemma MissingIsWanted(s: Store, e: Event, i: Info)
    requires e.StartContent?
    ensures i in Missing(s, e.adverts, e.music).missing <==> Wanted(s, e, i)
  {
    var l := Collect(Listing(s, []), e.adverts);
    CollectMisses(Listing(s, []), e.adverts, i);
    CollectAccounts(Listing(s, []), e.adverts);
    CollectMisses(l, e.music, i);
  }

  lemma RecordStarts(c: Cycle, es: seq<Event>)
    requires Possible(c, es) && es != [] && Last(es).StartContent?
    ensures Records(c, es)
  {
    LastStep(c, es);
    var m := |es| - 1;
    assert Before(c, es, m) == Run(c, Front(es));
    forall i ensures i in Run(c, es).missing <==> WantedNow(c, es, i) {
      MissingIsWanted(Before(c, es, m).store, es[m], i);
    }
  }

  /** The event ends the download of i, which was delivered. */
  ghost predicate EndsWell(c: Cycle, f: seq<Event>, e: Event, i: Info)
    requires Possible(c, f)
  {
    e.Finish? && Run(c, f).phase == Fetching(i) && Succeeds(c, f, e.noError)
  }

  lemma DownloadsLast(c: Cycle, es: seq<Event>, i: Info)
    requires Possible(c, es) && es != [] && Possible(c, Front(es))
    ensures Downloads(c, es, |es| - 1, i) <==> EndsWell(c, Front(es), Last(es), i)
  {
    assert es[..|es| - 1] == Front(es);
  }

  lemma FinishDone(c: Cycle, f: seq<Event>, noError: bool)
    requires c.phase == Idle && Possible(c, f) && Enabled(Run(c, f), Finish(noError))
    ensures var s := Run(c, f);
            && Step(s, Finish(noError)).missing == s.missing
            && Step(s, Finish(noError)).done == s.done + if Succeeds(c, f, noError) then {s.phase.file} else {}
  {
    Tracked(c, f);
    RunKeeps(c, f);
    FetchedKind(Run(c, f));
    FinishTells(Run(c, f), noError, Succeeds(c, f, noError));
  }

  /** The end of a download is recorded as it should. */
  lemma RecordStep(c: Cycle, f: seq<Event>, e: Event, i: Info)
    requires c.phase == Idle && Possible(c, f) && Enabled(Run(c, f), e) && !e.StartContent? && !e.Start?
    ensures i in Step(Run(c, f), e).done <==> i in Run(c, f).done || EndsWell(c, f, e, i)
    ensures Step(Run(c, f), e).missing == Run(c, f).missing
  {
    if e.Finish? {
      FinishDone(c, f, e.noError);
    } else {
      OthersKeepDone(Run(c, f), e);
    }
  }

  lemma OthersKeepDone(s: Cycle, e: Event)
    requires Enabled(s, e) && !e.Start? && !e.StartContent? && !e.Finish?
    ensures Step(s, e).done == s.done && Step(s, e).missing == s.missing
  {
  }

  lemma {:induction false} Recorded(c: Cycle, es: seq<Event>)
    requires c.phase == Idle && Possible(c, es)
    ensures Content(Run(c, es)) ==> Records(c, es)
    decreases |es|
  {
    if es != [] && Content(Run(c, es)) {
      LastStep(c, es);
      if Last(es).StartContent? {
        RecordStarts(c, es);
      } else {
        var f := Front(es);
        assert Content(Run(c, f));
        Recorded(c, f);
        forall i ensures i in Run(c, es).done <==> Downloaded(c, es, i) {
          RecordStep(c, f, Last(es), i);
          DownloadsLast(c, es, i);
          DownloadedNext(c, es, i);
        }
        forall i ensures i in Run(c, es).missing <==> WantedNow(c, es, i) {
          RecordStep(c, f, Last(es), i);
          WantedNext(c, es, i);
        }
      }
    }
  }

  ghost predicate AllDownloaded(c: Cycle, es: seq<Event>)
    requires Possible(c, es)
  {
    forall i :: WantedNow(c, es, i) ==> Downloaded(c, es, i)
  }

  /** No two of the files that are missing have the same name. */
  ghost predicate WantedApart(c: Cycle, es: seq<Event>)
    requires Possible(c, es)
  {
    forall i, j :: WantedNow(c, es, i) && WantedNow(c, es, j) && i.name == j.name ==> i == j
  }

  lemma RecordsTell(c: Cycle, es: seq<Event>)
    requires Possible(c, es) && Records(c, es)
    ensures NamesApart(Run(c, es).missing) <==> WantedApart(c, es)
    ensures NoneLeft(Run(c, es)) <==> AllDownloaded(c, es)
  {
    var s := Run(c, es);
    assert forall i :: i in s.missing <==> WantedNow(c, es, i);
    if NamesApart(s.missing) {
      forall i, j | WantedNow(c, es, i) && WantedNow(c, es, j) && i.name == j.name ensures i == j {
        assert i in s.missing && j in s.missing;
      }
    }
    if WantedApart(c, es) {
      forall i, j | i in s.missing && j in s.missing && i.name == j.name ensures i == j {
        assert WantedNow(c, es, i) && WantedNow(c, es, j);
      }
    }
    if NoneLeft(s) {
      forall i | WantedNow(c, es, i) ensures Downloaded(c, es, i) {
        assert i in s.missing;
      }
    }
    if AllDownloaded(c, es) {
      forall i | i in s.missing ensures i in s.done {
        assert WantedNow(c, es, i);
      }
    }
  }

  /** Over all runs of cycles, whatever is in the stores, told from the events: the local revision
      changes only at the end of a cycle, and to a positive revision of the server that differs. If
      no two of the files that the manifests name and that are missing share a name, it changes
      exactly when every one of them was delivered in this very cycle; if two share one, it never
      waits for all of them. */
  lemma RevisionIsSafe(c: Cycle, es: seq<Event>, e: Event)
    requires c.phase == Idle && Possible(c, es) && Enabled(Run(c, es), e)
    ensures var s := Run(c, es);
            Advances(s, e) ==> e.Conclude? && Step(s, e).revLocal == s.revServer > 0
    ensures var s := Run(c, es);
            e.Conclude? ==>
              && LastContent(es) >= 0
              && (WantedApart(c, es) ==>
                    (Advances(s, e) <==> AllDownloaded(c, es) && s.revServer > 0 && s.revLocal != s.revServer))
              && (!WantedApart(c, es) && Advances(s, e) ==> !AllDownloaded(c, es))
  {
    AdvancesOnRecord(c, es, e);
    if e.Conclude? {
      Recorded(c, es);
      RecordsTell(c, es);
    }
  }

  // --------------------------------------------------------------------------- every file

  /** Event k tells that the server does not have i, or begins its download. */
  ghost predicate TriedAt(c: Cycle, es: seq<Event>, k: nat, i: Info)
    requires Possible(c, es) && k < |es|
  {
    var s := Before(c, es, k);
    (es[k].NotListed? && s.lookups != [] && s.lookups[0] == i) ||
    (es[k].NextDownload? && Enabled(s, es[k]) && Step(s, es[k]).phase == Fetching(i))
  }

  ghost predicate Tried(c: Cycle, es: seq<Event>, i: Info)
    requires Possible(c, es)
  {
    exists k: nat :: LastContent(es) < k < |es| && TriedAt(c, es, k, i)
  }

  ghost predicate AllTried(c: Cycle, es: seq<Event>)
    requires Possible(c, es)
  {
    var s := Run(c, es);
    Content(s) ==> forall i :: i in s.content ==> i in Ahead(s) || Tried(c, es, i)
  }

  lemma TriedStill(c: Cycle, es: seq<Event>, i: Info)
    requires Possible(c, es) && es != [] && Possible(c, Front(es)) && LastContent(es) == LastContent(Front(es))
    requires Tried(c, Front(es), i)
    ensures Tried(c, es, i)
  {
    var f := Front(es);
    var k: nat :| LastContent(f) < k < |f| && TriedAt(c, f, k, i);
    BeforeFront(c, es, k);
    assert es[k] == f[k];
    assert TriedAt(c, es, k, i);
  }

  lemma TriedNow(c: Cycle, es: seq<Event>, i: Info)
    requires Possible(c, es) && es != [] && Possible(c, Front(es)) && !Last(es).StartContent?
    requires var s, e := Run(c, Front(es)), Last(es);
             Enabled(s, e) && i in Ahead(s) && i !in Ahead(Step(s, e)) && (e.NotListed? || e.NextDownload?)
    ensures Tried(c, es, i)
  {
    var s, k := Run(c, Front(es)), |es| - 1;
    assert Before(c, es, k) == s && es[k] == Last(es);
    AheadLess(s, Last(es), i);
    assert TriedAt(c, es, k, i);
  }

  lemma AheadLess(s: Cycle, e: Event, i: Info)
    requires Enabled(s, e) && i in Ahead(s) && i !in Ahead(Step(s, e)) && (e.NotListed? || e.NextDownload?)
    ensures if e.NotListed? then i == s.lookups[0] else Step(s, e).phase == Fetching(i)
  {
    if e.NotListed? {
      assert s.lookups == [s.lookups[0]] + s.lookups[1..];
    } else {
      assert s.files == [s.files[0]] + s.files[1..];
    }
  }

  /** Other events leave the list of files as it is. */
  lemma AheadStays(s: Cycle, e: Event)
    requires Enabled(s, e) && Content(Step(s, e)) && !e.StartContent? && !e.NotListed? && !e.NextDownload?
    ensures Content(s) && Ahead(Step(s, e)) == Ahead(s) && Step(s, e).content == s.content
  {
    if e.Listed? {
      assert s.lookups == [s.lookups[0]] + s.lookups[1..];
    }
  }

  lemma {:induction false} AllAreTried(c: Cycle, es: seq<Event>)
    requires c.phase == Idle && Possible(c, es)
    ensures AllTried(c, es)
    decreases |es|
  {
    if es != [] && Content(Run(c, es)) {
      LastStep(c, es);
      if Last(es).StartContent? {
        assert Ahead(Run(c, es)) == Run(c, es).content;
      } else {
        AllAreTried(c, Front(es));
        TriedNext(c, es);
      }
    }
  }

  lemma TriedNext(c: Cycle, es: seq<Event>)
    requires Possible(c, es) && es != [] && Content(Run(c, es)) && !Last(es).StartContent?
    requires Possible(c, Front(es)) && AllTried(c, Front(es))
    ensures AllTried(c, es)
  {
    LastStep(c, es);
    var s, r, e := Run(c, Front(es)), Run(c, es), Last(es);
    if !e.NotListed? && !e.NextDownload? {
      AheadStays(s, e);
    }
    forall i | i in r.content ensures i in Ahead(r) || Tried(c, es, i) {
      if i !in Ahead(r) {
        if i in Ahead(s) {
          TriedNow(c, es, i);
        } else {
          TriedStill(c, es, i);
        }
      }
    }
  }

  /** A missing file is among those that are looked up. */
  lemma WantedIsContent(c: Cycle, es: seq<Event>, i: Info)
    requires c.phase == Idle && Possible(c, es) && Content(Run(c, es)) && Records(c, es)
    requires WantedApart(c, es) && WantedNow(c, es, i)
    ensures i in Run(c, es).content
  {
    var s := Run(c, es);
    assert i in s.missing;
    RecordsTell(c, es);
    RunKeeps(c, es);
    MissingIsContent(s, i);
  }

  lemma MissingIsContent(s: Cycle, i: Info)
    requires Inv(s) && s.phase != Idle && NamesApart(s.missing) && i in s.missing
    ensures i in s.content
  {
    SameNamesHide(s.missing, s.content);
  }

  /** Downloads begin when all files were looked up. */
  lemma {:induction false} LookupsFirst(c: Cycle, es: seq<Event>)
    requires Possible(c, es) && (c.phase != Idle && c.phase != Looking ==> c.lookups == [])
    ensures var s := Run(c, es); s.phase != Idle && s.phase != Looking ==> s.lookups == []
    decreases |es|
  {
    if es != [] {
      LookupsFirst(Step(c, es[0]), es[1..]);
    }
  }

  /** At the end of a cycle every file that was missing has been tried: the server did not list it,
      or its download was begun; unless another one has its name. */
  lemma EveryFileIsTried(c: Cycle, es: seq<Event>, e: Event, i: Info)
    requires c.phase == Idle && Possible(c, es) && Enabled(Run(c, es), e) && e.Conclude?
    requires WantedApart(c, es) && WantedNow(c, es, i)
    ensures Tried(c, es, i)
  {
    Recorded(c, es);
    WantedIsContent(c, es, i);
    AllAreTried(c, es);
    LookupsFirst(c, es);
    NothingAhead(Run(c, es), e, i);
  }

  lemma NothingAhead(s: Cycle, e: Event, i: Info)
    requires Enabled(s, e) && e.Conclude? && (s.phase != Looking ==> s.lookups == [])
    ensures i !in Ahead(s)
  {
  }

  // ------------------------------------------------------------------------ the manifests

  /** Where the cycle began, while it is in its first half. */
  function LastStart(es: seq<Event>): (n: int)
    ensures -1 <= n < |es|
    ensures n >= 0 ==> es[n].Start?
    ensures forall k :: 0 <= n < k < |es| ==> !es[k].Start? && !es[k].StartContent?
    decreases |es|
  {
    if es == [] || Last(es).StartContent? then -1
    else if Last(es).Start? then |es| - 1
    else LastStart(Front(es))
  }

  /** Event k ends the download of the control file of that name, and it was delivered. */
  ghost predicate ControlCame(c: Cycle, es: seq<Event>, k: nat, name: string)
    requires Possible(c, es) && k < |es|
  {
    exists i: Info :: i.kind.Revision? && i.name == name && Downloads(c, es, k, i)
  }

  ghost predicate ControlSince(c: Cycle, es: seq<Event>, name: string)
    requires Possible(c, es)
  {
    exists k: nat :: 0 <= LastStart(es) < k < |es| && ControlCame(c, es, k, name)
  }

  lemma ControlStill(c: Cycle, es: seq<Event>, name: string)
    requires Possible(c, es) && es != [] && Possible(c, Front(es)) && LastStart(es) == LastStart(Front(es))
    requires ControlSince(c, Front(es), name)
    ensures ControlSince(c, es, name)
  {
    var f := Front(es);
    var k: nat :| 0 <= LastStart(f) < k < |f| && ControlCame(c, f, k, name);
    var i: Info :| i.kind.Revision? && i.name == name && Downloads(c, f, k, i);
    DownloadsFront(c, es, k, i);
    assert ControlCame(c, es, k, name);
  }

  lemma ControlNow(c: Cycle, es: seq<Event>)
    requires c.phase == Idle && Possible(c, es) && es != [] && Possible(c, Front(es)) && Last(es).Finish?
    requires 0 <= LastStart(es) && Enabled(Run(c, Front(es)), Last(es))
    requires var s := Run(c, Front(es)); s.phase.Fetching? && s.revision && Succeeds(c, Front(es), Last(es).noError)
    ensures ControlSince(c, es, Run(c, Front(es)).phase.file.name)
  {
    var i := Run(c, Front(es)).phase.file;
    RunKeeps(c, Front(es));
    FetchedKind(Run(c, Front(es)));
    DownloadsLast(c, es, i);
    assert ControlCame(c, es, |es| - 1, i.name);
  }

  ghost predicate StatesFresh(c: Cycle, es: seq<Event>)
    requires Possible(c, es)
  {
    var s := Run(c, es);
    s.phase != Idle && s.revision ==>
      LastStart(es) >= 0 && forall name :: Readable(s.store, name) ==> ControlSince(c, es, name)
  }

  lemma {:induction false} StatesAreFresh(c: Cycle, es: seq<Event>)
    requires c.phase == Idle && Possible(c, es)
    ensures StatesFresh(c, es)
    decreases |es|
  {
    if es != [] {
      LastStep(c, es);
      StatesAreFresh(c, Front(es));
      if Run(c, es).phase != Idle && Run(c, es).revision && !Last(es).Start? {
        FreshNext(c, es);
      }
    }
  }

  lemma FreshNext(c: Cycle, es: seq<Event>)
    requires c.phase == Idle && Possible(c, es) && es != [] && !Last(es).Start?
    requires Possible(c, Front(es)) && StatesFresh(c, Front(es))
    requires Run(c, es).phase != Idle && Run(c, es).revision
    ensures StatesFresh(c, es)
  {
    LastStep(c, es);
    var f, e := Front(es), Last(es);
    var s, r := Run(c, f), Run(c, es);
    StatesNext(s, e);
    forall name | Readable(r.store, name) ensures ControlSince(c, es, name) {
      if Readable(s.store, name) {
        ControlStill(c, es, name);
      } else {
        FreshFinish(c, f, e.noError, name);
        ControlNow(c, es);
      }
    }
  }

  lemma StatesNext(s: Cycle, e: Event)
    requires Enabled(s, e) && Step(s, e).phase != Idle && Step(s, e).revision && !e.Start?
    ensures s.phase != Idle && s.revision && !e.StartContent?
    ensures !e.Finish? ==> Step(s, e).store.rev == s.store.rev
  {
  }

  lemma FreshFinish(c: Cycle, f: seq<Event>, noError: bool, name: string)
    requires c.phase == Idle && Possible(c, f) && Enabled(Run(c, f), Finish(noError)) && Run(c, f).revision
    requires !Readable(Run(c, f).store, name) && Readable(Step(Run(c, f), Finish(noError)).store, name)
    ensures name == Run(c, f).phase.file.name && Succeeds(c, f, noError)
  {
    TrustFollowsEvents(c, f, noError);
    RunKeeps(c, f);
    FetchedKind(Run(c, f));
  }

  /** The control files with which a cycle begins. */
  lemma StartFiles(c: Cycle, order: seq<Info>, i: Info)
    requires Enabled(c, Start(order))
    ensures i in order <==>
              i in {Info(Revision, "command", "command"), Info(Revision, "chanels", "chanels"),
                    Info(Revision, "cron.d", "adverttable"), Info(Revision, "timetable", "timetable"),
                    Info(Revision, "timetable", "vtimetable")}
    ensures Step(c, Start(order)).lookups == order && Step(c, Start(order)).revision
  {
    assert DistinctNames(CONTROL_FILES);
    SameNamesHide(CONTROL_FILES, order);
    ByNameHas(CONTROL_FILES);
    if i in CONTROL_FILES {
      assert i in order;
    }
  }

  /** A manifest is read only if it was delivered in this very cycle: adverttable for the adverts,
      chanels for the music. */
  lemma ManifestsAreFresh(c: Cycle, es: seq<Event>, e: Event)
    requires c.phase == Idle && Possible(c, es) && Enabled(Run(c, es), e) && e.StartContent?
    ensures e.adverts != [] ==> ControlSince(c, es, "adverttable")
    ensures e.music != [] ==> ControlSince(c, es, "chanels")
  {
    StatesAreFresh(c, es);
  }

  // ------------------------------------------------------------------ what is published then

  lemma DoneStays(c: Cycle, es: seq<Event>, i: Info)
    requires c.phase == Idle && Possible(c, es) && es != [] && Possible(c, Front(es))
    requires Content(Run(c, es)) && !Last(es).StartContent? && i in Run(c, Front(es)).done
    ensures var s, r := Run(c, Front(es)).store.staged, Run(c, es).store.staged;
            (i in s <==> i in r) && (i in s ==> r[i] == s[i])
  {
    LastStep(c, es);
    RunKeeps(c, Front(es));
  }

  /** An advert that was downloaded in this cycle is staged as it was delivered, whatever was
      downloaded after it. */
  lemma {:induction false} DownloadedIsKept(c: Cycle, es: seq<Event>, k: nat, i: Info)
    requires c.phase == Idle && Possible(c, es) && Content(Run(c, es)) && LastContent(es) < k < |es|
    requires Downloads(c, es, k, i) && i.kind.Advert?
    ensures i in Run(c, es).store.staged && Run(c, es).store.staged[i] == Delivered(es[..k])
    decreases |es|
  {
    LastStep(c, es);
    Recorded(c, es);
    var f := Front(es);
    if k == |es| - 1 {
      assert es[..k] == f;
      StagedIsDelivered(c, f, es[k].noError);
    } else {
      assert Last(es) == es[|es| - 1] && !Last(es).StartContent? && !Last(es).Start?;
      DownloadsFront(c, es, k, i);
      assert f[..k] == es[..k];
      DownloadedIsKept(c, f, k, i);
      Recorded(c, f);
      assert i in Run(c, f).done;
      DoneStays(c, es, i);
    }
  }

  /** So when the revision follows, every missing advert is there as it was delivered in this cycle,
      unless another missing file has its name. */
  lemma AdvancedIsDelivered(c: Cycle, es: seq<Event>, e: Event, i: Info) returns (k: nat)
    requires c.phase == Idle && Possible(c, es) && Enabled(Run(c, es), e) && Advances(Run(c, es), e)
    requires WantedApart(c, es) && WantedNow(c, es, i) && i.kind.Advert?
    ensures LastContent(es) < k < |es| && Downloads(c, es, k, i)
    ensures i in Run(c, es).store.staged && Run(c, es).store.staged[i] == Delivered(es[..k])
  {
    RevisionIsSafe(c, es, e);
    assert Downloaded(c, es, i);
    k :| LastContent(es) < k < |es| && Downloads(c, es, k, i);
    DownloadedIsKept(c, es, k, i);
  }
}
