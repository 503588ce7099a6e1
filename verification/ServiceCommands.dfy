/**
 Commands to a service over its local socket (qtservice on Unix): lines ended by CR LF, taken
 from a cache per socket, each answered by "true" or "false".
 */
module ServiceCommands {
  import opened Text

  datatype Flags = Flags(canBeSuspended: bool, cannotBeStopped: bool)

  /** What a command makes the service do. `Process` holds the text of the number. */
  datatype Action = Stop | Pause | Resume | Process(number: string)

  /** One socket: its cache, the answers written to it, and the actions of the service. */
  datatype Conn = Conn(cache: string, replies: seq<bool>, actions: seq<Action>)

  datatype Effect = Effect(actions: seq<Action>, reply: bool)

  /** What commands do, all of them. */
  type Table = string -> Effect

  function Execute(flags: Flags, cmd: string): Effect {
    if cmd == "terminate" then
      if flags.cannotBeStopped then Effect([], false) else Effect([Stop], true)
    else if cmd == "pause" then
      if flags.canBeSuspended then Effect([Pause], true) else Effect([], false)
    else if cmd == "resume" then
      if flags.canBeSuspended then Effect([Resume], true) else Effect([], false)
    else if cmd == "alive" then Effect([], true)
    else if |cmd| > 4 && cmd[..4] == "num:" then Effect([Process(cmd[4..])], true)
    else Effect([], false)
  }

  /** The table of a service. */
  function TableOf(flags: Flags): Table { cmd => Execute(flags, cmd) }

  /** The index of the first CR LF not before i, or the length. */
  function EndingFrom(s: string, i: nat): (e: nat)
    requires i <= |s|
    ensures i <= e <= |s|
    ensures e < |s| ==> e + 1 < |s| && s[e] == '\r' && s[e + 1] == '\n'
    decreases |s| - i
  {
    if i + 1 >= |s| then |s|
    else if s[i] == '\r' && s[i + 1] == '\n' then i
    else EndingFrom(s, i + 1)
  }

  function Ending(s: string): (e: nat)
    ensures e <= |s|
    ensures e < |s| ==> e + 1 < |s| && s[e] == '\r' && s[e + 1] == '\n'
  {
    EndingFrom(s, 0)
  }

  predicate HasCommand(s: string) { Ending(s) < |s| }
  function First(s: string): string requires HasCommand(s) { s[..Ending(s)] }
  function After(s: string): string requires HasCommand(s) { s[Ending(s) + 2..] }

  function Executed(c: Conn, table: Table, cmd: string): Conn {
    var e := table(cmd);
    Conn(c.cache, c.replies + [e.reply], c.actions + e.actions)
  }

  /** slotReady after the read: an empty command is taken from the cache and ends the call. */
  function Drain(c: Conn, table: Table): Conn
    decreases |c.cache|
  {
    if !HasCommand(c.cache) then c
    else
      var rest := c.(cache := After(c.cache));
      if First(c.cache) == "" then rest else Drain(Executed(rest, table, First(c.cache)), table)
  }

  function Feed(c: Conn, table: Table, chunk: string): Conn {
    Drain(c.(cache := c.cache + chunk), table)
  }

  function FeedAll(c: Conn, table: Table, chunks: seq<string>): Conn
    decreases |chunks|
  {
    if chunks == [] then c else FeedAll(Feed(c, table, chunks[0]), table, chunks[1..])
  }

  // --------------------------------------------------------------------- what a stream means

  /** The commands of a stream, the empty ones included, and what follows the last. */
  function Commands(s: string): seq<string>
    decreases |s|
  {
    if HasCommand(s) then [First(s)] + Commands(After(s)) else []
  }

  function Tail(s: string): string
    decreases |s|
  {
    if HasCommand(s) then Tail(After(s)) else s
  }

  function Replies(table: Table, cmds: seq<string>): seq<bool> {
    if cmds == [] then []
    else (if cmds[0] == "" then [] else [table(cmds[0]).reply]) + Replies(table, cmds[1..])
  }

  function Actions(table: Table, cmds: seq<string>): seq<Action> {
    if cmds == [] then []
    else (if cmds[0] == "" then [] else table(cmds[0]).actions) + Actions(table, cmds[1..])
  }

  /** Commands carried out and answered, one after the other. */
  function Done(c: Conn, table: Table, cmds: seq<string>, tail: string): Conn {
    Conn(tail, c.replies + Replies(table, cmds), c.actions + Actions(table, cmds))
  }

  function Meaning(c: Conn, table: Table, stream: string): Conn {
    Done(c, table, Commands(stream), Tail(stream))
  }

  /** No command is empty, but perhaps the last. */
  predicate Calm(cmds: seq<string>) {
    forall i :: 0 <= i < |cmds| - 1 ==> cmds[i] != ""
  }

  lemma {:induction false} EndingFromIsFirst(s: string, i: nat)
    requires i <= |s|
    ensures forall j, k :: i <= j < EndingFrom(s, i) && k == j + 1 && k < |s| ==> !(s[j] == '\r' && s[k] == '\n')
    decreases |s| - i
  {
    if i + 1 < |s| {
      EndingFromIsFirst(s, i + 1);
    }
  }

  lemma EndingIsFirst(s: string)
    ensures forall j, k :: 0 <= j < Ending(s) && k == j + 1 && k < |s| ==> !(s[j] == '\r' && s[k] == '\n')
  {
    EndingFromIsFirst(s, 0);
  }

  lemma {:induction false} EndingUnique(s: string, i: nat)
    requires i + 1 < |s| && s[i] == '\r' && s[i + 1] == '\n'
    requires forall j, k :: 0 <= j < i && k == j + 1 ==> !(s[j] == '\r' && s[k] == '\n')
    ensures Ending(s) == i
  {
    EndingIsFirst(s);
    var e := Ending(s);
    var k := i + 1;
    assert s[k] == '\n';
    if e < |s| {
      var f := e + 1;
      assert s[e] == '\r' && s[f] == '\n';
    }
  }

  lemma EndingAppend(a: string, b: string)
    requires HasCommand(a)
    ensures HasCommand(a + b) && First(a + b) == First(a) && After(a + b) == After(a) + b
  {
    EndingIsFirst(a);
    var i := Ending(a);
    var s := a + b;
    assert s[i] == a[i] && s[i + 1] == a[i + 1];
    forall j, k | 0 <= j < i && k == j + 1 ensures !(s[j] == '\r' && s[k] == '\n') {
      assert s[j] == a[j] && s[k] == a[k];
    }
    EndingUnique(s, i);
    assert s[..i] == a[..i] && s[i + 2..] == a[i + 2..] + b;
  }

  lemma {:induction false} CommandsAppend(a: string, b: string)
    ensures Commands(a + b) == Commands(a) + Commands(Tail(a) + b)
    ensures Tail(a + b) == Tail(Tail(a) + b)
    decreases |a|
  {
    if HasCommand(a) {
      EndingAppend(a, b);
      CommandsAppend(After(a), b);
      var x, y := Commands(After(a)), Commands(Tail(a) + b);
      assert Commands(a + b) == [First(a)] + (x + y);
      assert [First(a)] + (x + y) == ([First(a)] + x) + y;
    } else {
      assert Commands(a) + Commands(a + b) == Commands(a + b);
    }
  }

  lemma {:induction false} RepliesAppend(table: Table, a: seq<string>, b: seq<string>)
    ensures Replies(table, a + b) == Replies(table, a) + Replies(table, b)
    ensures Actions(table, a + b) == Actions(table, a) + Actions(table, b)
    decreases |a|
  {
    if a == [] {
      assert a + b == b;
    } else {
      RepliesAppend(table, a[1..], b);
      assert (a + b)[0] == a[0] && (a + b)[1..] == a[1..] + b;
      RepliesCons(table, a + b);
      RepliesCons(table, a);
      Associates(if a[0] == "" then [] else [table(a[0]).reply], Replies(table, a[1..]), Replies(table, b));
      Associates(if a[0] == "" then [] else table(a[0]).actions, Actions(table, a[1..]), Actions(table, b));
    }
  }

  lemma Associates<T>(a: seq<T>, b: seq<T>, c: seq<T>)
    ensures a + (b + c) == (a + b) + c
  {
  }

  lemma RepliesCons(table: Table, cmds: seq<string>)
    requires cmds != []
    ensures Replies(table, cmds) ==
            (if cmds[0] == "" then [] else [table(cmds[0]).reply]) + Replies(table, cmds[1..])
    ensures Actions(table, cmds) ==
            (if cmds[0] == "" then [] else table(cmds[0]).actions) + Actions(table, cmds[1..])
  {
  }

  lemma {:induction false} TailHasNoCommand(s: string)
    ensures !HasCommand(Tail(s))
    decreases |s|
  {
    if HasCommand(s) {
      TailHasNoCommand(After(s));
    }
  }

  lemma CalmParts(a: seq<string>, b: seq<string>)
    requires Calm(a + b)
    ensures Calm(a) && Calm(b)
  {
    forall i | 0 <= i < |a| - 1 ensures a[i] != "" {
      assert (a + b)[i] == a[i];
    }
    forall i | 0 <= i < |b| - 1 ensures b[i] != "" {
      assert (a + b)[|a| + i] == b[i];
    }
  }

  lemma CalmCons(cmd: string, cmds: seq<string>)
    ensures Calm([cmd] + cmds) <==> Calm(cmds) && (cmd != "" || cmds == [])
  {
    var all := [cmd] + cmds;
    if Calm(all) {
      CalmParts([cmd], cmds);
      assert cmds != [] ==> all[0] != "";
    } else {
      var i :| 0 <= i < |all| - 1 && all[i] == "";
      assert i > 0 ==> cmds[i - 1] == "";
    }
  }

  lemma DoneOne(c: Conn, table: Table, cmd: string, cmds: seq<string>, tail: string)
    ensures cmd != "" ==> Done(c, table, [cmd] + cmds, tail) == Done(Executed(c, table, cmd), table, cmds, tail)
    ensures cmd == "" ==> Done(c, table, [cmd] + cmds, tail) == Done(c, table, cmds, tail)
  {
    var all := [cmd] + cmds;
    assert all[0] == cmd && all[1..] == cmds;
    if cmd != "" {
      var e := table(cmd);
      assert c.replies + ([e.reply] + Replies(table, cmds)) == c.replies + [e.reply] + Replies(table, cmds);
      assert c.actions + (e.actions + Actions(table, cmds)) == c.actions + e.actions + Actions(table, cmds);
    } else {
      assert [] + Replies(table, cmds) == Replies(table, cmds);
      assert [] + Actions(table, cmds) == Actions(table, cmds);
    }
  }

  lemma DoneNone(c: Conn, table: Table)
    ensures Done(c, table, [], c.cache) == c
  {
    assert c.replies + [] == c.replies && c.actions + [] == c.actions;
  }

  lemma EmptyStops(c: Conn, table: Table)
    requires HasCommand(c.cache) && First(c.cache) == "" && Commands(After(c.cache)) == []
    ensures Drain(c, table) == Meaning(c, table, c.cache)
  {
    var rest := After(c.cache);
    assert !HasCommand(rest) && Tail(c.cache) == rest;
    DoneOne(c, table, "", [], rest);
    DoneNone(c.(cache := rest), table);
    assert Commands(c.cache) == [""] + [];
  }

  /** One call gives a calm stream its meaning. */
  lemma {:induction false} DrainIsMeaning(c: Conn, table: Table)
    requires Calm(Commands(c.cache))
    ensures Drain(c, table) == Meaning(c, table, c.cache)
    decreases |c.cache|
  {
    if HasCommand(c.cache) {
      CalmCons(First(c.cache), Commands(After(c.cache)));
      if First(c.cache) == "" {
        EmptyStops(c, table);
      } else {
        DoneOne(c, table, First(c.cache), Commands(After(c.cache)), Tail(c.cache));
        DrainIsMeaning(Executed(c.(cache := After(c.cache)), table, First(c.cache)), table);
      }
    }
  }

  lemma DoneAppend(c: Conn, table: Table, x: seq<string>, y: seq<string>, t: string, u: string)
    ensures Done(Done(c, table, x, t), table, y, u) == Done(c, table, x + y, u)
  {
    RepliesAppend(table, x, y);
    assert (c.replies + Replies(table, x)) + Replies(table, y) == c.replies + (Replies(table, x) + Replies(table, y));
    assert (c.actions + Actions(table, x)) + Actions(table, y) == c.actions + (Actions(table, x) + Actions(table, y));
  }

  lemma MeaningAppend(c: Conn, table: Table, a: string, b: string)
    ensures Meaning(Meaning(c, table, a), table, Tail(a) + b) == Meaning(c, table, a + b)
  {
    CommandsAppend(a, b);
    DoneAppend(c, table, Commands(a), Commands(Tail(a) + b), Tail(a), Tail(a + b));
  }

  /** A calm stream has its meaning however it is cut, also between CR and LF. */
  lemma {:induction false} CalmCutsAgree(c: Conn, table: Table, chunks: seq<string>)
    requires !HasCommand(c.cache) && Calm(Commands(c.cache + Join(chunks)))
    ensures FeedAll(c, table, chunks) == Meaning(c, table, c.cache + Join(chunks))
    decreases |chunks|
  {
    if chunks == [] {
      assert c.cache + Join(chunks) == c.cache;
    } else {
      var a, b := c.cache + chunks[0], Join(chunks[1..]);
      assert c.cache + Join(chunks) == a + b;
      CommandsAppend(a, b);
      CalmParts(Commands(a), Commands(Tail(a) + b));
      var d := c.(cache := a);
      DrainIsMeaning(d, table);
      TailHasNoCommand(a);
      MeaningAppend(c, table, a, b);
      CalmCutsAgree(Drain(d, table), table, chunks[1..]);
    }
  }

  lemma EndingOfFront(s: string)
    requires HasCommand(s)
    ensures forall k :: Ending(s) + 2 <= k <= |s| ==>
              Ending(s[..k]) == Ending(s) && HasCommand(s[..k]) && First(s[..k]) == First(s) &&
              After(s[..k]) == After(s)[..k - Ending(s) - 2]
  {
    EndingIsFirst(s);
    var e := Ending(s);
    forall k | e + 2 <= k <= |s|
      ensures Ending(s[..k]) == e && HasCommand(s[..k]) && First(s[..k]) == First(s) &&
              After(s[..k]) == After(s)[..k - e - 2]
    {
      assert s[..k][e] == '\r' && s[..k][e + 1] == '\n';
      EndingUnique(s[..k], e);
    }
  }

  /** Cutting behind the first command cuts what follows it. */
  /** What a call leaves in the cache. */
  function LeftBy(s: string): string
    decreases |s|
  {
    if !HasCommand(s) then s else if First(s) == "" then After(s) else LeftBy(After(s))
  }

  lemma {:induction false} DrainLeaves(c: Conn, table: Table)
    ensures Drain(c, table).cache == LeftBy(c.cache)
    decreases |c.cache|
  {
    if HasCommand(c.cache) && First(c.cache) != "" {
      DrainLeaves(Executed(c.(cache := After(c.cache)), table, First(c.cache)), table);
    }
  }

  /** A call stops at k: with a command left, and with nothing if it got only that much. */
  predicate StopsAt(s: string, k: nat) {
    k <= |s| && HasCommand(s[k..]) && LeftBy(s) == s[k..] && LeftBy(s[..k]) == ""
  }

  lemma StopsAtFirst(s: string)
    requires HasCommand(s) && First(s) == "" && HasCommand(After(s))
    ensures StopsAt(s, Ending(s) + 2)
  {
    EndingOfFront(s);
    var k := Ending(s) + 2;
    assert After(s[..k]) == After(s)[..0] == "";
  }

  lemma StopsLater(s: string, m: nat)
    requires HasCommand(s) && First(s) != "" && StopsAt(After(s), m)
    ensures StopsAt(s, Ending(s) + 2 + m)
  {
    var k := Ending(s) + 2 + m;
    EndingOfFront(s);
    assert After(s[..k]) == After(s)[..m];
    assert s[k..] == After(s)[m..];
  }

  lemma Restless(s: string)
    requires !Calm(Commands(s))
    ensures HasCommand(s)
    ensures First(s) == "" ==> HasCommand(After(s))
    ensures First(s) != "" ==> !Calm(Commands(After(s)))
  {
    CalmCons(First(s), Commands(After(s)));
  }

  /** The end of the first empty command that has a successor. */
  lemma {:induction false} StopPoint(s: string) returns (k: nat)
    requires !Calm(Commands(s))
    ensures StopsAt(s, k)
    decreases |s|
  {
    Restless(s);
    if First(s) == "" {
      k := Ending(s) + 2;
      StopsAtFirst(s);
    } else {
      var m := StopPoint(After(s));
      k := Ending(s) + 2 + m;
      StopsLater(s, m);
    }
  }

  /** Every call consumes at least the first command. */
  lemma {:induction false} DrainConsumes(c: Conn, table: Table)
    ensures |Drain(c, table).cache| <= |c.cache|
    ensures HasCommand(c.cache) ==> |Drain(c, table).cache| < |c.cache|
    decreases |c.cache|
  {
    if HasCommand(c.cache) && First(c.cache) != "" {
      DrainConsumes(Executed(c.(cache := After(c.cache)), table, First(c.cache)), table);
    }
  }

  ghost predicate CutsAgree(table: Table, stream: string) {
    forall chunks :: Join(chunks) == stream ==>
      FeedAll(Conn("", [], []), table, chunks) == Feed(Conn("", [], []), table, stream)
  }

  lemma CalmAgrees(table: Table, stream: string)
    requires Calm(Commands(stream))
    ensures CutsAgree(table, stream)
  {
    var start := Conn("", [], []);
    assert "" + stream == stream;
    forall chunks | Join(chunks) == stream
      ensures FeedAll(start, table, chunks) == Feed(start, table, stream)
    {
      CalmCutsAgree(start, table, chunks);
      DrainIsMeaning(start.(cache := stream), table);
    }
  }

  lemma TwoPieces(c: Conn, table: Table, a: string, b: string)
    ensures Join([a, b]) == a + b
    ensures FeedAll(c, table, [a, b]) == Feed(Feed(c, table, a), table, b)
  {
    var chunks := [a, b];
    assert chunks[1..] == [b] && [b][1..] == [];
    assert Join([b]) == b + Join([]) == b;
    var d := Feed(c, table, a);
    assert FeedAll(d, table, [b]) == FeedAll(Feed(d, table, b), table, []);
  }

  lemma FeedFirst(table: Table, x: string)
    ensures Feed(Conn("", [], []), table, x) == Drain(Conn(x, [], []), table)
  {
    assert "" + x == x;
  }

  lemma FeedConsumes(d: Conn, table: Table, b: string)
    requires d.cache == "" && HasCommand(b)
    ensures |Feed(d, table, b).cache| < |b|
  {
    assert d.cache + b == b;
    DrainConsumes(d.(cache := b), table);
  }

  lemma Disagreement(table: Table, stream: string, chunks: seq<string>)
    requires Join(chunks) == stream
    requires FeedAll(Conn("", [], []), table, chunks) != Feed(Conn("", [], []), table, stream)
    ensures !CutsAgree(table, stream)
  {
  }

  lemma PiecesDiffer(table: Table, stream: string, k: nat)
    requires StopsAt(stream, k)
    ensures Join([stream[..k], stream[k..]]) == stream
    ensures FeedAll(Conn("", [], []), table, [stream[..k], stream[k..]]) != Feed(Conn("", [], []), table, stream)
  {
    var a, b := stream[..k], stream[k..];
    assert a + b == stream;
    FeedFirst(table, stream);
    FeedFirst(table, a);
    DrainLeaves(Conn(stream, [], []), table);
    DrainLeaves(Conn(a, [], []), table);
    TwoPieces(Conn("", [], []), table, a, b);
    FeedConsumes(Feed(Conn("", [], []), table, a), table, b);
  }

  lemma RestlessDisagrees(table: Table, stream: string)
    requires !Calm(Commands(stream))
    ensures !CutsAgree(table, stream)
  {
    var k := StopPoint(stream);
    PiecesDiffer(table, stream, k);
    Disagreement(table, stream, [stream[..k], stream[k..]]);
  }

  /** How the bytes of a stream are cut into deliveries makes no difference, if and only if no
      empty command is followed by another command. */
  lemma CuttingDoesNotMatter(table: Table, stream: string)
    ensures CutsAgree(table, stream) <==> Calm(Commands(stream))
  {
    if Calm(Commands(stream)) {
      CalmAgrees(table, stream);
    } else {
      RestlessDisagrees(table, stream);
    }
  }

  /** One answer for each command of a calm stream, in the order of the commands. */
  lemma {:induction false} OneReplyEach(table: Table, cmds: seq<string>)
    requires forall i :: 0 <= i < |cmds| ==> cmds[i] != ""
    ensures |Replies(table, cmds)| == |cmds|
    ensures forall i :: 0 <= i < |cmds| ==> Replies(table, cmds)[i] == table(cmds[i]).reply
    decreases |cmds|
  {
    if cmds != [] {
      OneReplyEach(table, cmds[1..]);
      forall i | 0 <= i < |cmds|
        ensures Replies(table, cmds)[i] == table(cmds[i]).reply
      {
        assert i > 0 ==> cmds[i] == cmds[1..][i - 1];
      }
    }
  }

  lemma EndOfTail(tail: string)
    requires !HasCommand(tail)
    ensures Ending(tail + CRLF) == |tail|
  {
    EndingIsFirst(tail);
    var s := tail + CRLF;
    var n := |tail|;
    assert s[n] == '\r' && s[n + 1] == '\n';
    forall j, k | 0 <= j < n && k == j + 1 ensures !(s[j] == '\r' && s[k] == '\n') {
      assert s[j] == tail[j];
      assert k < n ==> s[k] == tail[k];
    }
    EndingUnique(s, n);
  }

  predicate Free(s: string) { forall j, k :: 0 <= j < |s| && k == j + 1 && k < |s| ==> !(s[j] == '\r' && s[k] == '\n') }

  predicate AllFree(cmds: seq<string>) { forall i :: 0 <= i < |cmds| ==> Free(cmds[i]) }

  /** Commands as they are sent, each ended by CR LF. */
  function Sent(cmds: seq<string>): string
    decreases |cmds|
  {
    if cmds == [] then "" else cmds[0] + "\r\n" + Sent(cmds[1..])
  }

  lemma FirstSent(cmd: string, more: string)
    requires Free(cmd)
    ensures var s := cmd + "\r\n" + more; HasCommand(s) && First(s) == cmd && After(s) == more
  {
    var s := cmd + "\r\n" + more;
    var n := |cmd|;
    assert s[n] == '\r' && s[n + 1] == '\n';
    forall j, k | 0 <= j < n && k == j + 1 ensures !(s[j] == '\r' && s[k] == '\n') {
      assert s[j] == cmd[j];
      assert k < n ==> s[k] == cmd[k];
    }
    EndingUnique(s, n);
    assert s[..n] == cmd && s[n + 2..] == more;
  }

  lemma FreeHasNone(s: string)
    ensures Free(s) <==> !HasCommand(s)
  {
    EndingIsFirst(s);
    var e := Ending(s);
    if e < |s| {
      var f := e + 1;
      assert s[e] == '\r' && s[f] == '\n';
    }
  }

  /** What is sent is read: the commands in order, and the rest is left. */
  lemma {:induction false} SentIsRead(cmds: seq<string>, tail: string)
    requires AllFree(cmds) && Free(tail)
    ensures Commands(Sent(cmds) + tail) == cmds && Tail(Sent(cmds) + tail) == tail
    decreases |cmds|
  {
    FreeHasNone(tail);
    if cmds == [] {
      assert Sent(cmds) + tail == tail;
    } else {
      var more := Sent(cmds[1..]) + tail;
      assert Sent(cmds) + tail == cmds[0] + "\r\n" + more;
      FirstSent(cmds[0], more);
      forall i | 0 <= i < |cmds[1..]| ensures Free(cmds[1..][i]) {
        assert cmds[1..][i] == cmds[i + 1];
      }
      SentIsRead(cmds[1..], tail);
      assert [cmds[0]] + cmds[1..] == cmds;
    }
  }

  lemma FirstIsFree(s: string)
    requires HasCommand(s)
    ensures Free(First(s)) && s == First(s) + "\r\n" + After(s)
  {
    EndingIsFirst(s);
    forall j, k | 0 <= j < |First(s)| && k == j + 1 && k < |First(s)|
      ensures !(First(s)[j] == '\r' && First(s)[k] == '\n')
    {
      assert First(s)[j] == s[j] && First(s)[k] == s[k];
    }
  }

  lemma SentCons(cmd: string, cmds: seq<string>, tail: string)
    ensures Sent([cmd] + cmds) + tail == cmd + "\r\n" + (Sent(cmds) + tail)
    ensures AllFree([cmd] + cmds) <==> Free(cmd) && AllFree(cmds)
  {
    var all := [cmd] + cmds;
    assert all[0] == cmd && all[1..] == cmds;
    if AllFree(all) {
      assert Free(all[0]) && forall i :: 0 <= i < |cmds| ==> cmds[i] == all[i + 1];
    }
  }

  /** Every stream is made up like that. */
  lemma {:induction false} AnyStreamIsSent(s: string)
    ensures Sent(Commands(s)) + Tail(s) == s && AllFree(Commands(s)) && Free(Tail(s))
    decreases |s|
  {
    FreeHasNone(s);
    if HasCommand(s) {
      AnyStreamIsSent(After(s));
      FirstIsFree(s);
      SentCons(First(s), Commands(After(s)), Tail(s));
    }
  }

  /** What each command does and how it is answered: terminate unless the service cannot be stopped,
      pause and resume if it can be suspended, alive always, num: with a number; nothing else. */
  lemma CommandsDo(flags: Flags, number: string, other: string)
    requires other !in {"terminate", "pause", "resume", "alive"} && (|other| <= 4 || other[..4] != "num:")
    ensures Execute(flags, "terminate") == if flags.cannotBeStopped then Effect([], false) else Effect([Stop], true)
    ensures Execute(flags, "pause") == if flags.canBeSuspended then Effect([Pause], true) else Effect([], false)
    ensures Execute(flags, "resume") == if flags.canBeSuspended then Effect([Resume], true) else Effect([], false)
    ensures Execute(flags, "alive") == Effect([], true)
    ensures number != "" ==> Execute(flags, "num:" + number) == Effect([Process(number)], true)
    ensures Execute(flags, other) == Effect([], false)
  {
    var cmd := "num:" + number;
    assert cmd[..4] == "num:" && cmd[4..] == number && cmd[0] == 'n';
    if number != "" {
      assert "terminate"[0] == 't' && "pause"[0] == 'p' && "resume"[0] == 'r' && "alive"[0] == 'a';
    }
  }

  /** The cache of a closed socket stays. A later socket at its address is answered like a new
      one, if and only if nothing was left in the cache. */
  lemma TailOutlivesSocket(table: Table, tail: string)
    requires !HasCommand(tail)
    ensures (forall x :: Feed(Conn(tail, [], []), table, x).replies == Feed(Conn("", [], []), table, x).replies)
            <==> tail == ""
  {
    if tail != "" {
      var c, start := Conn(tail, [], []), Conn("", [], []);
      EndOfTail(tail);
      var full := c.(cache := tail + CRLF);
      assert First(full.cache) == tail && After(full.cache) == "";
      var d := Executed(c.(cache := ""), table, tail);
      assert Feed(c, table, CRLF) == Drain(d, table) == d;
      EndOfTail("");
      assert "" + CRLF == CRLF && First(CRLF) == "";
      assert Feed(start, table, CRLF).replies == [];
    }
  }
}
