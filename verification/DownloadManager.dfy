/**
 The objects of the update cycle: the checked storage, whose queries clean up, and the manager
 whose slots move the cycle on. They refine UpdateStore and UpdateCycle.
 */
module DownloadManager {
  import opened UpdateStore
  import opened UpdateCycle

  class CheckDownloadedContent {
    var staged: map<Info, Bytes>
    var player: set<Info>
    var trusted: set<Key>
    var rev: map<string, Rev>

    function View(): Store
      reads this
    {
      Store(staged, player, trusted, rev)
    }

    constructor (s: Store)
      ensures View() == s
    {
      staged, player, trusted, rev := s.staged, s.player, s.trusted, s.rev;
    }

    method Remove(info: Info)
      modifies this`trusted
      ensures trusted == old(trusted) - {KeyOf(info)}
    {
      trusted := trusted - {KeyOf(info)};
    }

    method SetTrust(info: Info)
      modifies this`trusted
      ensures trusted == old(trusted) + {KeyOf(info)}
    {
      trusted := trusted + {KeyOf(info)};
    }

    method SetRev(info: Info, status: Rev)
      modifies this`rev
      ensures rev == old(rev)[info.name := status]
    {
      rev := rev[info.name := status];
    }

    method CheckFile(info: Info, placed: bool) returns (ok: bool)
      modifies this`staged, this`trusted
      ensures Checked(View(), ok) == UpdateStore.CheckFile(old(View()), info, placed)
    {
      ok := KeyOf(info) in trusted;
      if !ok {
        if placed && info in staged {
          staged := staged - {info};
          Remove(info);
        }
      }
    }

    method CheckExistFile(info: Info) returns (exist: bool)
      modifies this`staged, this`trusted
      ensures Checked(View(), exist) == CheckExist(old(View()), info)
    {
      var ok := CheckFile(info, info.kind.Advert?);
      exist := ok || info in player;
    }

    method CheckAllFiles(infos: seq<Info>) returns (ok: bool)
      modifies this`staged, this`trusted
      ensures Checked(View(), ok) == CheckAll(old(View()), infos)
    {
      if |infos| == 0 {
        return true;
      }
      ok := false;
      for i := 0 to |infos|
        invariant i > 0 ==> ok
        invariant CheckAll(View(), infos[i..]) == CheckAll(old(View()), infos)
      {
        ok := CheckFile(infos[i], true);
        if !ok {
          break;
        }
      }
    }

    /** The loop over the lines of a manifest. */
    method CollectContent(entries: seq<Info>, before: seq<Info>) returns (missing: seq<Info>)
      modifies this`staged, this`trusted
      ensures Listing(View(), missing) == Collect(Listing(old(View()), before), entries)
    {
      var list := entries;
      missing := before;
      while list != []
        invariant Collect(Listing(View(), missing), list) == Collect(Listing(old(View()), before), entries)
        decreases |list|
      {
        var info := list[0];
        list := list[1..];
        var exist := CheckExistFile(info);
        if !exist {
          missing := missing + [info];
        }
      }
    }

    method Clear()
      modifies this
      ensures View() == Cleared(old(View()))
    {
      staged := map i | i in staged && !i.kind.Revision? :: staged[i];
      rev := map[];
    }

    method AppendTo(info: Info, bytes: Bytes)
      modifies this`staged
      ensures View() == Append(old(View()), info, bytes)
    {
      staged := staged[info := (if info in staged then staged[info] else []) + bytes];
    }

    method Replace(s: Store)
      modifies this
      ensures View() == s
    {
      staged, player, trusted, rev := s.staged, s.player, s.trusted, s.rev;
    }
  }

  class Manager {
    const check: CheckDownloadedContent
    var phase: Phase
    var revision: bool
    var contentFiles: seq<Info>
    var ftpContentFiles: seq<Info>
    var files: seq<Info>
    var downloadTimeout: bool
    var fullDownloadBytes: bool
    var revLocal: int
    var revServer: int
    ghost var chunks: seq<Bytes>
    ghost var skipped: set<Info>
    ghost var done: set<Info>
    ghost var missing: seq<Info>

    ghost function View(): Cycle
      reads this, check
    {
      Cycle(check.View(), phase, revision, contentFiles, ftpContentFiles, files, downloadTimeout, fullDownloadBytes,
            chunks, skipped, done, missing, revLocal, revServer)
    }

    constructor (check: CheckDownloadedContent, revLocal: int, revServer: int)
      ensures this.check == check
      ensures View() == Cycle(check.View(), Idle, true, [], [], [], false, false, [], {}, {}, [], revLocal, revServer)
    {
      this.check := check;
      phase, revision := Idle, true;
      contentFiles, ftpContentFiles, files := [], [], [];
      downloadTimeout, fullDownloadBytes := false, false;
      this.revLocal, this.revServer := revLocal, revServer;
      chunks, skipped, done, missing := [], {}, {}, [];
    }

    method GetTotalSize(order: seq<Info>, ghost listed: seq<Info>)
      modifies this
      ensures View() == Lookup(old(View()), old(check.View()), old(revision), listed, order)
    {
      phase := Looking;
      contentFiles := order;
      ftpContentFiles := order;
      files := [];
      skipped, done, missing := {}, {}, listed;
    }

    /** `order` is the order in which the map of content files is walked. */
    method Start(order: seq<Info>)
      requires Enabled(View(), Event.Start(order))
      modifies this, check
      ensures View() == Step(old(View()), Event.Start(order))
    {
      check.Clear();
      revision := true;
      GetTotalSize(order, CONTROL_FILES);
    }

    method StartContent(adverts: seq<Info>, music: seq<Info>, order: seq<Info>)
      requires Enabled(View(), Event.StartContent(adverts, music, order))
      modifies this, check
      ensures View() == Step(old(View()), Event.StartContent(adverts, music, order))
    {
      var listed := check.CollectContent(adverts, []);
      listed := check.CollectContent(music, listed);
      revision := false;
      GetTotalSize(order, listed);
    }

    /** The server has answered the LIST of the first file, with its entry or without. */
    method ListInfo(isFile: bool)
      requires Enabled(View(), Listed)
      modifies this
      ensures View() == Step(old(View()), if isFile then Listed else NotListed)
    {
      var current := ftpContentFiles[0];
      ftpContentFiles := ftpContentFiles[1..];
      if isFile {
        files := files + [current];
      } else {
        skipped := skipped + {current};
      }
    }

    /** nextDownload, when files are left. */
    method NextDownload()
      requires Enabled(View(), Event.NextDownload)
      modifies this
      ensures View() == Step(old(View()), Event.NextDownload)
    {
      phase := Fetching(files[0]);
      files := files[1..];
      downloadTimeout := false;
      fullDownloadBytes := false;
      chunks := [];
    }

    /** nextDownload, when none is left; `after` is what syncContent leaves. */
    method Conclude(after: Store)
      requires Enabled(View(), Event.Conclude(after))
      modifies this, check
      ensures View() == Step(old(View()), Event.Conclude(after))
    {
      var ok := check.CheckAllFiles(contentFiles);
      var advance := CheckRevision();
      if ok && advance {
        revLocal := revServer;
      }
      check.Replace(after);
      phase := Idle;
    }

    method CheckRevision() returns (advance: bool)
      ensures advance == UpdateCycle.CheckRevision(View())
    {
      if revServer <= 0 {
        return false;
      }
      return revLocal != revServer;
    }

    method SaveDownloadedFile(bytes: Bytes)
      requires phase.Fetching?
      modifies this`chunks, check
      ensures View() == Step(old(View()), Chunk(bytes))
    {
      check.AppendTo(phase.file, bytes);
      chunks := chunks + [bytes];
    }

    method DownloadProgress(cb: int, tb: int)
      requires phase.Fetching?
      modifies this`fullDownloadBytes
      ensures View() == Step(old(View()), Progressed(cb, tb))
    {
      if !revision {
        if cb >= tb && cb > 0 && tb != -1 {
          if FileSize(check.View(), phase.file) == cb {
            fullDownloadBytes := true;
          }
        }
      }
    }

    method DownloadTimeout()
      requires phase.Fetching?
      modifies this`downloadTimeout
      ensures View() == Step(old(View()), TimedOut)
    {
      downloadTimeout := true;
    }

    method DownloadFinished(noError: bool)
      requires phase.Fetching?
      modifies this, check
      ensures View() == Step(old(View()), Finish(noError))
    {
      var info := phase.file;
      var there := info in check.staged;
      if there && !downloadTimeout && noError {
        if !revision {
          check.SetTrust(info);
        } else {
          check.SetRev(info, DownloadOk);
        }
        done := done + {info};
      } else if revision {
        check.SetRev(info, DownloadFail);
      }
      if there && !revision && fullDownloadBytes {
        check.SetTrust(info);
        done := done + {info};
      }
      phase := Between;
    }
  }
}
