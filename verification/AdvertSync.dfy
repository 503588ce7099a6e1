/**
 The publication of adverts: trusted staged files are moved into the player's directory, and
 what the manifest does not name is removed from it.
 */
module AdvertSync {
  import opened Text

  type Bytes = seq<bv8>

  /** The staged adverts, the player's adverts, the trusted names, the manifest adverttable, and
      whether it was downloaded and the command file is there. */
  datatype Dirs = Dirs(
    staged: map<string, Bytes>, player: map<string, Bytes>, trusted: set<string>,
    manifest: string, manifestOk: bool, commandExists: bool)

  // ----------------------------------------------------------------------------- the manifest

  /** section(';', 0, 0). */
  function FirstSection(line: string): string { line[..IndexOf(line, ';')] }

  function NamesOf(lines: seq<string>): seq<string> {
    if lines == [] then []
    else
      var name := FirstSection(lines[0]);
      (if name == "" then [] else [name]) + NamesOf(lines[1..])
  }

  function Names(manifest: string): seq<string> { NamesOf(Split(manifest, '\n')) }

  /** A line as it is written: a name, and perhaps more behind a semicolon; a line without a name is
      blank. */
  datatype Entry = Entry(name: string, rest: Option<string>)

  predicate Writable(e: Entry) {
    ';' !in e.name && '\n' !in e.name && (e.rest.Some? ==> '\n' !in e.rest.value)
  }

  predicate AllWritable(entries: seq<Entry>) { forall i :: 0 <= i < |entries| ==> Writable(entries[i]) }

  function LineOf(e: Entry): string { e.name + if e.rest.None? then "" else ";" + e.rest.value }

  function LinesOf(entries: seq<Entry>): (lines: seq<string>)
    ensures |lines| == |entries| && forall i :: 0 <= i < |lines| ==> lines[i] == LineOf(entries[i])
  {
    seq(|entries|, i requires 0 <= i < |entries| => LineOf(entries[i]))
  }

  /** The names written, in order, the blank ones left out. */
  function Written(entries: seq<Entry>): seq<string>
    decreases |entries|
  {
    if entries == [] then []
    else (if entries[0].name == "" then [] else [entries[0].name]) + Written(entries[1..])
  }

  lemma LineReads(e: Entry)
    requires Writable(e)
    ensures FirstSection(LineOf(e)) == e.name && '\n' !in LineOf(e)
  {
    var line := LineOf(e);
    assert forall j :: 0 <= j < |e.name| ==> line[j] == e.name[j];
    if e.rest.None? {
      assert line == e.name;
      assert IndexOf(line, ';') == |line|;
    } else {
      assert line == e.name + ";" + e.rest.value && line[|e.name|] == ';';
      IndexUnique(line, ';', |e.name|);
    }
  }

  lemma {:induction false} LinesRead(entries: seq<Entry>)
    requires AllWritable(entries)
    ensures NamesOf(LinesOf(entries)) == Written(entries)
    decreases |entries|
  {
    if entries != [] {
      LineReads(entries[0]);
      assert LinesOf(entries)[1..] == LinesOf(entries[1..]);
      LinesRead(entries[1..]);
    }
  }

  /** A manifest is read back as exactly the names that were written into it, in order: names
      without semicolon and line feed, each alone on its line or followed by a semicolon and more,
      with blank lines anywhere. */
  lemma ManifestReads(entries: seq<Entry>)
    requires entries != [] && AllWritable(entries)
    ensures Names(Separated(LinesOf(entries), '\n')) == Written(entries)
  {
    forall i | 0 <= i < |entries| ensures '\n' !in LinesOf(entries)[i] {
      LineReads(entries[i]);
    }
    SplitReads(LinesOf(entries), '\n');
    LinesRead(entries);
  }

  function EntryOf(line: string): Entry {
    var k := IndexOf(line, ';');
    Entry(line[..k], if k == |line| then None else Some(line[k + 1..]))
  }

  /** Every text is such a manifest. */
  lemma AnyTextIsManifest(manifest: string) returns (entries: seq<Entry>)
    ensures entries != [] && AllWritable(entries) && Separated(LinesOf(entries), '\n') == manifest
    ensures Names(manifest) == Written(entries)
  {
    var lines := Split(manifest, '\n');
    SplitRestores(manifest, '\n');
    entries := seq(|lines|, i requires 0 <= i < |lines| => EntryOf(lines[i]));
    forall i | 0 <= i < |lines| ensures Writable(entries[i]) && LineOf(entries[i]) == lines[i] {
      EntryWritable(lines[i]);
    }
    assert LinesOf(entries) == lines;
    ManifestReads(entries);
  }

  lemma EntryWritable(line: string)
    requires '\n' !in line
    ensures Writable(EntryOf(line)) && LineOf(EntryOf(line)) == line
  {
    var k := IndexOf(line, ';');
    assert k < |line| ==> line == line[..k] + ";" + line[k + 1..];
    assert k == |line| ==> line[..k] == line;
  }

  // ------------------------------------------------------------------------------ what it does

  /** The directory after all trusted staged files were moved into it. */
  function Published(d: Dirs): map<string, Bytes> {
    d.player + map n | n in d.staged && n in d.trusted :: d.staged[n]
  }

  function Synced(d: Dirs): Dirs {
    d.(staged := map n | n in d.staged && n !in d.trusted :: d.staged[n],
       trusted := d.trusted - d.staged.Keys,
       player := if d.manifestOk && d.commandExists
                 then map n | n in Published(d) && n in Names(d.manifest) :: Published(d)[n]
                 else Published(d))
  }

  /** A second synchronisation finds nothing to do. */
  lemma SyncSettles(d: Dirs)
    ensures Synced(Synced(d)) == Synced(d)
  {
    var s := Synced(d);
    assert forall n :: n in s.staged ==> n !in s.trusted;
    assert Published(s) == s.player;
    assert Synced(s).player == s.player;
    assert Synced(s).staged == s.staged;
    assert Synced(s).trusted == s.trusted;
  }

  // ---------------------------------------------------------------------------- moving files

  predicate NoRepeats(s: seq<string>) { forall i, j :: 0 <= i < j < |s| ==> s[i] != s[j] }

  predicate ListingOf(s: seq<string>, files: set<string>) {
    NoRepeats(s) && (forall i :: 0 <= i < |s| ==> s[i] in files) && forall n :: n in files ==> n in s
  }

  /** A file is moved over what is there, and its trust is taken back. */
  function MoveOne(d: Dirs, n: string): Dirs {
    if n !in d.staged then d
    else d.(player := (d.player - {n})[n := d.staged[n]], staged := d.staged - {n}, trusted := d.trusted - {n})
  }

  function MoveAll(d: Dirs, names: seq<string>): Dirs
    decreases |names|
  {
    if names == [] then d else MoveAll(MoveOne(d, names[0]), names[1..])
  }

  lemma {:induction false} MoveAllAt(d: Dirs, names: seq<string>, n: string)
    requires NoRepeats(names) && forall i :: 0 <= i < |names| ==> names[i] in d.staged
    ensures var r := MoveAll(d, names);
            (n in r.staged <==> n in d.staged && n !in names) &&
            (n in r.staged ==> r.staged[n] == d.staged[n]) &&
            (n in r.trusted <==> n in d.trusted && n !in names) &&
            (n in r.player <==> n in d.player || n in names) &&
            (n in r.player ==> r.player[n] == if n in names then d.staged[n] else d.player[n])
    decreases |names|
  {
    if names != [] {
      var rest := names[1..];
      assert n in names <==> n == names[0] || n in rest;
      forall i | 0 <= i < |rest| ensures rest[i] in MoveOne(d, names[0]).staged {
        assert rest[i] == names[i + 1];
      }
      forall i | 0 <= i < |rest| ensures rest[i] != names[0] {
        assert rest[i] == names[i + 1];
      }
      MoveAllAt(MoveOne(d, names[0]), rest, n);
    }
  }

  lemma {:induction false} MoveAllKeeps(d: Dirs, names: seq<string>)
    ensures var r := MoveAll(d, names);
            r.manifest == d.manifest && r.manifestOk == d.manifestOk && r.commandExists == d.commandExists
    decreases |names|
  {
    if names != [] {
      MoveAllKeeps(MoveOne(d, names[0]), names[1..]);
    }
  }

  lemma MoveAllLeaves(d: Dirs, names: seq<string>)
    requires ListingOf(names, d.staged.Keys * d.trusted)
    ensures MoveAll(d, names).staged == Synced(d).staged && MoveAll(d, names).trusted == Synced(d).trusted
  {
    var r := MoveAll(d, names);
    forall n
      ensures n in r.staged <==> n in d.staged && n !in d.trusted
      ensures n in r.staged ==> r.staged[n] == d.staged[n]
      ensures n in r.trusted <==> n in d.trusted && n !in d.staged
    {
      MoveAllAt(d, names, n);
      assert n in names <==> n in d.staged.Keys * d.trusted;
    }
    assert r.trusted == d.trusted - d.staged.Keys;
  }

  lemma MoveAllFills(d: Dirs, names: seq<string>)
    requires ListingOf(names, d.staged.Keys * d.trusted)
    ensures MoveAll(d, names).player == Published(d)
  {
    var p := MoveAll(d, names).player;
    forall n
      ensures n in p <==> n in d.player || (n in d.staged && n in d.trusted)
      ensures n in p ==> p[n] == if n in d.staged && n in d.trusted then d.staged[n] else d.player[n]
    {
      MoveAllAt(d, names, n);
      assert n in names <==> n in d.staged.Keys * d.trusted;
    }
  }

  /** Moving the trusted files one after the other, in any order, publishes them. */
  lemma MoveAllPublishes(d: Dirs, names: seq<string>)
    requires ListingOf(names, d.staged.Keys * d.trusted)
    ensures MoveAll(d, names) ==
            d.(player := Published(d), staged := Synced(d).staged, trusted := Synced(d).trusted)
  {
    MoveAllKeeps(d, names);
    MoveAllLeaves(d, names);
    MoveAllFills(d, names);
  }

  // ----------------------------------------------------------------------------- excess files

  /** Where a name stands first, or the length. */
  function Position(s: seq<string>, n: string): (k: nat)
    ensures k <= |s| && (k < |s| ==> s[k] == n)
    ensures forall i :: 0 <= i < k ==> s[i] != n
    ensures n in s <==> k < |s|
  {
    if s == [] || s[0] == n then 0 else 1 + Position(s[1..], n)
  }

  /** removeAt. */
  function Without(s: seq<string>, k: nat): seq<string> requires k < |s| { s[..k] + s[k + 1..] }

  /** The loop of deleteExcessFiles: each name that is found among the standard names uses one
      of them up; one that is not found is excess, if there is such a file. */
  function Excess(sources: seq<string>, standard: seq<string>, files: set<string>): seq<string>
    decreases |sources|
  {
    if sources == [] then []
    else
      var n := sources[0];
      var k := Position(standard, n);
      if k < |standard| then Excess(sources[1..], Without(standard, k), files)
      else (if n in files then [n] else []) + Excess(sources[1..], standard, files)
  }

  lemma WithoutKeepsOthers(s: seq<string>, k: nat, n: string)
    requires k < |s| && n != s[k]
    ensures n in Without(s, k) <==> n in s
  {
    if n in s {
      var i :| 0 <= i < |s| && s[i] == n;
      assert Without(s, k)[if i < k then i else i - 1] == n;
    }
  }

  /** Files that occur once among the sources are excess if and only if they are not standard,
      although names are used up and may be given more than once. */
  lemma {:induction false} ExcessIsUnlisted(sources: seq<string>, standard: seq<string>, files: set<string>, n: string)
    requires forall i, j :: 0 <= i < j < |sources| && sources[i] in files ==> sources[i] != sources[j]
    ensures n in Excess(sources, standard, files) <==> n in sources && n in files && n !in standard
    decreases |sources|
  {
    if sources != [] {
      var m, rest := sources[0], sources[1..];
      var k := Position(standard, m);
      forall i, j | 0 <= i < j < |rest| && rest[i] in files ensures rest[i] != rest[j] {
        assert sources[i + 1] == rest[i] && sources[j + 1] == rest[j];
      }
      assert n in sources <==> n == m || n in rest;
      if n == m && n in rest {
        var j :| 0 <= j < |rest| && rest[j] == n;
        assert sources[0] == sources[j + 1];
      }
      if k < |standard| {
        ExcessIsUnlisted(rest, Without(standard, k), files, n);
        if n != m {
          WithoutKeepsOthers(standard, k, n);
        }
      } else {
        ExcessIsUnlisted(rest, standard, files, n);
      }
    }
  }

  /** The names of a manifest that are neither trusted nor with the player. */
  function Absent(names: seq<string>, trusted: set<string>, files: set<string>): (r: seq<string>)
    ensures forall i :: 0 <= i < |r| ==> r[i] !in files
  {
    if names == [] then []
    else
      (if names[0] in trusted || names[0] in files then [] else [names[0]]) + Absent(names[1..], trusted, files)
  }

  lemma AbsentStep(name: string, names: seq<string>, trusted: set<string>, files: set<string>)
    ensures Absent([name] + names, trusted, files) ==
            (if name in trusted || name in files then [] else [name]) + Absent(names, trusted, files)
  {
    assert ([name] + names)[0] == name && ([name] + names)[1..] == names;
  }

  lemma Regroup(a: seq<string>, b: seq<string>, c: seq<string>)
    ensures (a + b) + c == a + (b + c) && a + [] == a
  {
  }

  /** The absent names in front of the listing of the directory do not spoil it. */
  lemma AbsentNamesAreHarmless(names: seq<string>, trusted: set<string>, listing: seq<string>,
                               files: set<string>, n: string)
    requires ListingOf(listing, files)
    ensures n in Excess(Absent(names, trusted, files) + listing, names, files) <==> n in files && n !in names
  {
    var absent := Absent(names, trusted, files);
    var sources := absent + listing;
    assert forall i :: 0 <= i < |absent| ==> sources[i] == absent[i];
    forall i, j | 0 <= i < j < |sources| && sources[i] in files ensures sources[i] != sources[j] {
      var k, m := i - |absent|, j - |absent|;
      assert sources[i] == listing[k] && sources[j] == listing[m];
    }
    ExcessIsUnlisted(sources, names, files, n);
    if n in listing {
      var i :| 0 <= i < |listing| && listing[i] == n;
      assert sources[|absent| + i] == n;
    }
  }

  lemma WithoutUnlisted(player: map<string, Bytes>, names: seq<string>, list: seq<string>)
    requires forall n :: n in list <==> n in player && n !in names
    ensures (map n | n in player && n !in list :: player[n]) == map n | n in player && n in names :: player[n]
    ensures list == [] <==> (map n | n in player && n in names :: player[n]) == player
  {
    var kept := map n | n in player && n in names :: player[n];
    if list != [] {
      assert list[0] in list && list[0] !in kept;
    } else {
      assert forall n :: n in player ==> n in names;
    }
  }
}
