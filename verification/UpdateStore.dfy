/**
 What an update works on: the staged files below the synchronised directory, the files the
 player has, the set of trusted files and the states of the control files; and the checks on
 them, one of which cleans up.
 */
module UpdateStore {

  type Bytes = seq<bv8>

  datatype Kind = Advert | Music | Revision

  /** An entry of a manifest: SContentInfo with the content it belongs to. */
  datatype Info = Info(kind: Kind, dir: string, name: string)

  /** A trust bit is kept by directory and name only. */
  datatype Key = Key(dir: string, name: string)

  function KeyOf(i: Info): Key { Key(i.dir, i.name) }

  /** A control file that has no state is in the state DEFAULT. */
  datatype Rev = DownloadFail | DownloadOk

  datatype Store = Store(staged: map<Info, Bytes>, player: set<Info>, trusted: set<Key>, rev: map<string, Rev>)

  datatype Checked = Checked(store: Store, ok: bool)

  /** checkFile: a staged file that is not trusted is removed. `placed` says that the content
      already looks into the directory where its files are staged; a music content does so
      only after its manifest was read. */
  function CheckFile(s: Store, i: Info, placed: bool): Checked {
    var ok := KeyOf(i) in s.trusted;
    if !ok && placed && i in s.staged
    then Checked(s.(staged := s.staged - {i}, trusted := s.trusted - {KeyOf(i)}), ok)
    else Checked(s, ok)
  }

  /** checkExistFile, for entries of the manifest that is being read. */
  function CheckExist(s: Store, i: Info): Checked {
    var c := CheckFile(s, i, i.kind.Advert?);
    Checked(c.store, c.ok || i in s.player)
  }

  /** checkAllFiles: an empty list passes, and the first file that fails ends the loop. */
  function CheckAll(s: Store, infos: seq<Info>): Checked {
    if infos == [] then Checked(s, true)
    else
      var c := CheckFile(s, infos[0], true);
      if c.ok then CheckAll(c.store, infos[1..]) else c
  }

  datatype Listing = Listing(store: Store, missing: seq<Info>)

  /** The loop of collectContentFromFile over the entries of a manifest. */
  function Collect(l: Listing, entries: seq<Info>): Listing
    decreases |entries|
  {
    if entries == [] then l
    else
      var c := CheckExist(l.store, entries[0]);
      Collect(Listing(c.store, if c.ok then l.missing else l.missing + [entries[0]]), entries[1..])
  }

  /** contentFiles() keeps one entry for each name, the last. */
  function ByName(infos: seq<Info>): map<string, Info> {
    if infos == [] then map[]
    else ByName(infos[..|infos| - 1])[infos[|infos| - 1].name := infos[|infos| - 1]]
  }

  predicate DistinctNames(infos: seq<Info>) {
    forall i, j :: 0 <= i < j < |infos| ==> infos[i].name != infos[j].name
  }

  /** The values of the map in some order. */
  predicate ValuesOf(m: map<string, Info>, infos: seq<Info>) {
    DistinctNames(infos) &&
    (forall n :: n in m ==> m[n] in infos) &&
    (forall i :: 0 <= i < |infos| ==> infos[i].name in m && m[infos[i].name] == infos[i])
  }

  // ------------------------------------------------------------------------------- the checks

  /** The list passes if and only if all its files are trusted; then nothing is removed. */
  lemma {:induction false} CheckAllIsTrust(s: Store, infos: seq<Info>)
    ensures CheckAll(s, infos).ok <==> forall i :: 0 <= i < |infos| ==> KeyOf(infos[i]) in s.trusted
    ensures CheckAll(s, infos).ok ==> CheckAll(s, infos).store == s
    ensures CheckAll(s, infos).store.trusted == s.trusted
    decreases |infos|
  {
    if infos != [] && KeyOf(infos[0]) in s.trusted {
      CheckAllIsTrust(s, infos[1..]);
      if forall i :: 0 <= i < |infos[1..]| ==> KeyOf(infos[1..][i]) in s.trusted {
        forall i | 0 <= i < |infos| ensures KeyOf(infos[i]) in s.trusted {
          assert i > 0 ==> infos[i] == infos[1..][i - 1];
        }
      } else {
        var i :| 0 <= i < |infos[1..]| && KeyOf(infos[1..][i]) !in s.trusted;
        assert infos[i + 1] == infos[1..][i];
      }
    }
  }

  /** Reading a manifest trusts nothing, adds nothing, and touches no control file. */
  predicate Shrinks(s: Store, t: Store) {
    t.trusted == s.trusted && t.player == s.player && t.rev == s.rev &&
    (forall i :: i in t.staged ==> i in s.staged && t.staged[i] == s.staged[i])
  }

  /** What is listed as missing: not trusted, not with the player, and, for adverts, no longer
      staged; and every other entry is trusted or with the player. */
  predicate Accounts(l: Listing) {
    forall i :: 0 <= i < |l.missing| ==>
      KeyOf(l.missing[i]) !in l.store.trusted && l.missing[i] !in l.store.player &&
      (l.missing[i].kind.Advert? ==> l.missing[i] !in l.store.staged)
  }

  lemma {:induction false} CollectAccounts(l: Listing, entries: seq<Info>)
    requires Accounts(l)
    ensures Accounts(Collect(l, entries)) && Shrinks(l.store, Collect(l, entries).store)
    decreases |entries|
  {
    if entries != [] {
      var c := CheckExist(l.store, entries[0]);
      CollectAccounts(Listing(c.store, if c.ok then l.missing else l.missing + [entries[0]]), entries[1..]);
    }
  }

  lemma {:induction false} CollectMisses(l: Listing, entries: seq<Info>, e: Info)
    ensures e in Collect(l, entries).missing <==>
            e in l.missing || (e in entries && KeyOf(e) !in l.store.trusted && e !in l.store.player)
    decreases |entries|
  {
    if entries != [] {
      var c := CheckExist(l.store, entries[0]);
      var next := Listing(c.store, if c.ok then l.missing else l.missing + [entries[0]]);
      CollectMisses(next, entries[1..], e);
      assert e in entries <==> e == entries[0] || e in entries[1..];
    }
  }

  /** Exactly the staged adverts that the manifest names and that are not trusted are removed. */
  lemma {:induction false} CollectRemoves(l: Listing, entries: seq<Info>, i: Info)
    ensures var r := Collect(l, entries).store;
            && (i in r.staged <==>
                  i in l.store.staged && !(i in entries && i.kind.Advert? && KeyOf(i) !in l.store.trusted))
            && (i in r.staged ==> r.staged[i] == l.store.staged[i])
    decreases |entries|
  {
    if entries != [] {
      var c := CheckExist(l.store, entries[0]);
      CollectRemoves(Listing(c.store, if c.ok then l.missing else l.missing + [entries[0]]), entries[1..], i);
      assert i in entries <==> i == entries[0] || i in entries[1..];
    }
  }

  /** The check removes the first file that is not trusted, and no other. */
  lemma {:induction false} CheckAllRemoves(s: Store, infos: seq<Info>, k: nat)
    requires k < |infos| && KeyOf(infos[k]) !in s.trusted
    requires forall i :: 0 <= i < k ==> KeyOf(infos[i]) in s.trusted
    ensures CheckAll(s, infos).store == s.(staged := s.staged - {infos[k]})
    decreases k
  {
    if k > 0 {
      forall i | 0 <= i < k - 1 ensures KeyOf(infos[1..][i]) in s.trusted {
        assert infos[1..][i] == infos[i + 1];
      }
      CheckAllRemoves(s, infos[1..], k - 1);
    } else {
      assert infos[0] !in s.staged ==> s.staged - {infos[0]} == s.staged;
      assert s.trusted - {KeyOf(infos[0])} == s.trusted;
    }
  }

  lemma {:induction false} ByNameHas(infos: seq<Info>)
    ensures forall n :: n in ByName(infos) ==> ByName(infos)[n] in infos && ByName(infos)[n].name == n
    ensures forall i :: 0 <= i < |infos| ==> infos[i].name in ByName(infos)
    decreases |infos|
  {
    if infos != [] {
      ByNameHas(infos[..|infos| - 1]);
    }
  }

  /** Whether all missing files are among those to be downloaded: if and only if no two of them
      have the same name in different directories or contents. */
  lemma SameNamesHide(missing: seq<Info>, files: seq<Info>)
    requires ValuesOf(ByName(missing), files)
    ensures (forall e :: e in missing ==> e in files) <==>
            (forall d, e :: d in missing && e in missing && d.name == e.name ==> d == e)
  {
    ByNameHas(missing);
    if forall e :: e in missing ==> e in files {
      forall d, e | d in missing && e in missing && d.name == e.name ensures d == e {
        assert d in files && e in files;
      }
    }
  }
}
