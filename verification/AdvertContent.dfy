/**
 The content object of the adverts, local side, with its lists and the two directories changed
 in loops. Directory listings come in any order.
 */
module AdvertContent {
  import opened Text
  import opened AdvertSync

  class Content {
    var sourceList: seq<string>
    var standartSourceFiles: seq<string>
    var staged: map<string, Bytes>
    var player: map<string, Bytes>
    var trusted: set<string>
    const manifest: string
    const manifestOk: bool
    const commandExists: bool

    ghost function View(): Dirs
      reads this
    {
      Dirs(staged, player, trusted, manifest, manifestOk, commandExists)
    }

    constructor (d: Dirs)
      ensures View() == d && sourceList == [] && standartSourceFiles == []
    {
      staged, player, trusted := d.staged, d.player, d.trusted;
      manifest, manifestOk, commandExists := d.manifest, d.manifestOk, d.commandExists;
      sourceList, standartSourceFiles := [], [];
    }

    /** filesFromDirWithCheck: the files that are trusted. Nothing is cleaned up on this side. */
    method FilesFromDirWithCheck(listing: seq<string>) returns (files: seq<string>)
      requires ListingOf(listing, staged.Keys)
      ensures ListingOf(files, staged.Keys * trusted)
    {
      files := [];
      for i := 0 to |listing|
        invariant forall k :: 0 <= k < |files| ==> files[k] in staged.Keys * trusted && files[k] in listing[..i]
        invariant forall k :: 0 <= k < i && listing[k] in trusted ==> listing[k] in files
        invariant NoRepeats(files)
      {
        if listing[i] in trusted {
          forall k | 0 <= k < |files| ensures files[k] != listing[i] {
            assert files[k] in listing[..i];
            var j :| 0 <= j < i && listing[..i][j] == files[k];
            assert listing[j] == files[k];
          }
          files := files + [listing[i]];
        }
      }
    }

    method CollectContentFromDirWithCheck(listing: seq<string>)
      requires ListingOf(listing, staged.Keys) && sourceList == []
      modifies this`sourceList
      ensures ListingOf(sourceList, staged.Keys * trusted)
    {
      var files := FilesFromDirWithCheck(listing);
      sourceList := sourceList + files;
    }

    /** Moves the listed files, replacing what is there, and takes their trust back. */
    method CopyToDestination() returns (result: bool)
      requires ListingOf(sourceList, staged.Keys * trusted)
      modifies this`staged, this`player, this`trusted
      ensures player == Published(old(View()))
      ensures staged == Synced(old(View())).staged && trusted == Synced(old(View())).trusted
      ensures result <==> sourceList != []
    {
      result := false;
      ghost var goal := MoveAll(View(), sourceList);
      for i := 0 to |sourceList|
        invariant MoveAll(View(), sourceList[i..]) == goal
        invariant forall k :: i <= k < |sourceList| ==> sourceList[k] in staged
        invariant result <==> i > 0
      {
        assert forall k :: i < k < |sourceList| ==> sourceList[k] != sourceList[i];
        assert sourceList[i..][0] == sourceList[i] && sourceList[i..][1..] == sourceList[i + 1..];
        Move(sourceList[i]);
        result := true;
      }
      MoveAllPublishes(old(View()), sourceList);
    }

    method Move(name: string)
      requires name in staged
      modifies this`staged, this`player, this`trusted
      ensures View() == MoveOne(old(View()), name)
    {
      if name in player {
        player := player - {name};
      }
      player := player[name := staged[name]];
      staged := staged - {name};
      trusted := trusted - {name};
    }

    method CheckExistFile(name: string) returns (exist: bool)
      ensures exist <==> name in trusted || name in player
    {
      exist := name in trusted || name in player;
    }

    /** Reads the manifest: the names that are absent, and all names. */
    method CollectContentFromFile()
      modifies this`sourceList, this`standartSourceFiles
      ensures sourceList == Absent(Names(manifest), trusted, player.Keys)
      ensures standartSourceFiles == old(standartSourceFiles) + Names(manifest)
    {
      var adList := Split(manifest, '\n');
      var adsFilesList: seq<string>, allFiles: seq<string> := [], [];
      ghost var names, files := Names(manifest), player.Keys;
      ghost var absent := Absent(names, trusted, files);
      while adList != []
        invariant allFiles + NamesOf(adList) == names
        invariant adsFilesList + Absent(NamesOf(adList), trusted, files) == absent
        invariant standartSourceFiles == old(standartSourceFiles)
        decreases |adList|
      {
        var fileName := FirstSection(adList[0]);
        ghost var here, rest := NamesOf(adList), NamesOf(adList[1..]);
        adList := adList[1..];
        if fileName == "" {
          assert here == [] + rest == rest;
          continue;
        }
        assert here == [fileName] + rest;
        AbsentStep(fileName, rest, trusted, files);
        Regroup(allFiles, [fileName], rest);
        Regroup(adsFilesList, [fileName], Absent(rest, trusted, files));
        allFiles := allFiles + [fileName];
        var exist := CheckExistFile(fileName);
        if !exist {
          adsFilesList := adsFilesList + [fileName];
        } else {
          assert [] + Absent(rest, trusted, files) == Absent(rest, trusted, files);
        }
      }
      Regroup(adsFilesList, [], []);
      Regroup(allFiles, [], []);
      sourceList := adsFilesList;
      standartSourceFiles := standartSourceFiles + allFiles;
    }

    /** The first standard file of that name is taken out of the list. */
    method TakeStandart(name: string) returns (compare: bool)
      modifies this`standartSourceFiles
      ensures compare <==> name in old(standartSourceFiles)
      ensures standartSourceFiles ==
              var s := old(standartSourceFiles);
              var k := Position(s, name);
              if k < |s| then Without(s, k) else s
    {
      compare := false;
      for k := 0 to |standartSourceFiles|
        invariant !compare && standartSourceFiles == old(standartSourceFiles)
        invariant forall i :: 0 <= i < k ==> standartSourceFiles[i] != name
      {
        if name == standartSourceFiles[k] {
          compare := true;
          assert Position(standartSourceFiles, name) == k;
          standartSourceFiles := standartSourceFiles[..k] + standartSourceFiles[k + 1..];
          break;
        }
      }
    }

    /** The sources that use up no standard file and are with the player. */
    method FindExcess() returns (list: seq<string>)
      modifies this`standartSourceFiles
      ensures list == Excess(sourceList, old(standartSourceFiles), player.Keys)
    {
      list := [];
      ghost var goal := Excess(sourceList, standartSourceFiles, player.Keys);
      for i := 0 to |sourceList|
        invariant list + Excess(sourceList[i..], standartSourceFiles, player.Keys) == goal
      {
        var name := sourceList[i];
        assert sourceList[i..][0] == name && sourceList[i..][1..] == sourceList[i + 1..];
        var compare := TakeStandart(name);
        Regroup(list, [name], Excess(sourceList[i + 1..], standartSourceFiles, player.Keys));
        Regroup(list, [], Excess(sourceList[i + 1..], standartSourceFiles, player.Keys));
        if !compare {
          if name in player {
            list := list + [name];
          }
        }
      }
      Regroup(list, [], []);
    }

    method RemoveFiles(list: seq<string>)
      modifies this`player
      ensures player == map n | n in old(player) && n !in list :: old(player)[n]
    {
      for i := 0 to |list|
        invariant player == map n | n in old(player) && n !in list[..i] :: old(player)[n]
      {
        player := player - {list[i]};
      }
      assert list[..|list|] == list;
    }

    /** `listing` is the player's directory. */
    method DeleteExcessFiles(listing: seq<string>) returns (result: bool)
      requires ListingOf(listing, player.Keys)
      modifies this`sourceList, this`standartSourceFiles, this`player
      ensures player == if manifestOk && commandExists
                        then map n | n in old(player) && n in Names(manifest) :: old(player)[n]
                        else old(player)
      ensures result <==> player != old(player)
    {
      result := false;
      if !commandExists {
        return;
      }
      standartSourceFiles := [];
      if !manifestOk {
        return;
      }
      CollectContentFromFile();
      sourceList := sourceList + listing;
      assert standartSourceFiles == Names(manifest);
      var list := FindExcess();
      forall n ensures n in list <==> n in player && n !in Names(manifest) {
        AbsentNamesAreHarmless(Names(manifest), trusted, listing, player.Keys, n);
      }
      WithoutUnlisted(player, Names(manifest), list);
      if list == [] {
        return;
      }
      result := true;
      RemoveFiles(list);
    }

    /** sync(), with the three directory listings it reads; the player is told to restart if a
        file was moved. What is trusted is published as it was staged and loses its trust, what is
        not trusted stays where it is; and if the manifest was downloaded and the command file is
        there, the player keeps exactly the files that the manifest names, else all. */
    method Sync(stagedListing: seq<string>, playerListing: seq<string>) returns (result: bool)
      requires ListingOf(stagedListing, staged.Keys) && sourceList == []
      requires ListingOf(playerListing, Published(View()).Keys)
      modifies this
      ensures View() == Synced(old(View()))
      ensures result <==> exists n :: n in old(staged) && n in old(trusted)
      ensures forall n :: n in player <==>
                (n in old(player) || (n in old(staged) && n in old(trusted))) &&
                (manifestOk && commandExists ==> n in Names(manifest))
      ensures forall n :: n in player && n in old(staged) && n in old(trusted) ==> player[n] == old(staged)[n]
      ensures forall n :: n in player && !(n in old(staged) && n in old(trusted)) ==> player[n] == old(player)[n]
      ensures forall n :: n in staged <==> n in old(staged) && n !in old(trusted)
      ensures forall n :: n in staged ==> staged[n] == old(staged)[n]
      ensures forall n :: n in trusted <==> n in old(trusted) && n !in old(staged)
    {
      CollectContentFromDirWithCheck(stagedListing);
      ghost var files := sourceList;
      assert files != [] ==> files[0] in old(staged) && files[0] in old(trusted);
      assert forall n :: n in old(staged) && n in old(trusted) ==> n in old(staged.Keys * trusted) && n in files;
      result := CopyToDestination();
      var deleted := DeleteExcessFiles(playerListing);
    }
  }
}
