/**
 The server socket of the service with its map of caches, changed in place; its slot refines
 ServiceCommands.Feed for the socket that is ready and leaves the others alone.
 */
module ServiceSocket {
  import opened ServiceCommands

  class QtServiceSys {
    const serviceFlags: Flags
    var cache: map<nat, string>
    var written: map<nat, seq<bool>>
    var actions: seq<Action>

    /** The connection at an address. */
    ghost function At(socket: nat): Conn
      reads this
    {
      Conn(if socket in cache then cache[socket] else "",
           if socket in written then written[socket] else [],
           actions)
    }

    function Does(): Table { TableOf(serviceFlags) }

    constructor (flags: Flags)
      ensures serviceFlags == flags && forall s :: At(s) == Conn("", [], [])
    {
      serviceFlags := flags;
      cache, written, actions := map[], map[], [];
    }

    method GetCommand(socket: nat) returns (cmd: string)
      modifies this`cache
      ensures var before := old(At(socket)).cache;
              (cmd == if HasCommand(before) then First(before) else "") &&
              At(socket) == old(At(socket)).(cache := if HasCommand(before) then After(before) else before)
      ensures forall s :: s != socket ==> At(s) == old(At(s))
    {
      if socket !in cache {
        cache := cache[socket := ""];
      }
      var pos := Ending(cache[socket]);
      if pos < |cache[socket]| {
        cmd := cache[socket][..pos];
        cache := cache[socket := cache[socket][pos + 2..]];
      } else {
        cmd := "";
      }
    }

    method Write(socket: nat, reply: bool)
      modifies this`written
      ensures At(socket) == old(At(socket)).(replies := old(At(socket)).replies + [reply])
      ensures forall s :: s != socket ==> At(s) == old(At(s))
    {
      written := written[socket := (if socket in written then written[socket] else []) + [reply]];
    }

    /** The branches of slotReady: what a command does, and the answer. */
    method Dispatch(cmd: string) returns (retValue: bool)
      modifies this`actions
      ensures actions == old(actions) + Does()(cmd).actions
      ensures retValue == Does()(cmd).reply
      ensures cmd == "terminate" ==>
                retValue == !serviceFlags.cannotBeStopped && actions == old(actions) + if retValue then [Stop] else []
      ensures cmd == "pause" ==>
                retValue == serviceFlags.canBeSuspended && actions == old(actions) + if retValue then [Pause] else []
      ensures cmd == "resume" ==>
                retValue == serviceFlags.canBeSuspended && actions == old(actions) + if retValue then [Resume] else []
    {
      retValue := false;
      if cmd == "terminate" {
        if !serviceFlags.cannotBeStopped {
          actions := actions + [Stop];
          retValue := true;
        }
      } else if cmd == "pause" {
        if serviceFlags.canBeSuspended {
          actions := actions + [Pause];
          retValue := true;
        }
      } else if cmd == "resume" {
        if serviceFlags.canBeSuspended {
          actions := actions + [Resume];
          retValue := true;
        }
      } else if cmd == "alive" {
        retValue := true;
      } else if |cmd| > 4 && cmd[..4] == "num:" {
        actions := actions + [Process(cmd[4..])];
        retValue := true;
      }
    }

    method Answer(socket: nat, cmd: string)
      modifies this`actions, this`written
      ensures At(socket) == Executed(old(At(socket)), Does(), cmd)
      ensures forall s :: s != socket ==> Untouched(s, old(At(s)))
    {
      var retValue := Dispatch(cmd);
      Write(socket, retValue);
    }

    ghost predicate Untouched(s: nat, c: Conn)
      reads this
    {
      At(s).cache == c.cache && At(s).replies == c.replies
    }

    /** Bytes have arrived at a socket. */
    method SlotReady(socket: nat, chunk: string)
      modifies this
      ensures At(socket) == Feed(old(At(socket)), Does(), chunk)
      ensures forall s :: s != socket ==> Untouched(s, old(At(s)))
    {
      cache := cache[socket := (if socket in cache then cache[socket] else "") + chunk];
      ghost var goal := Drain(At(socket), Does());
      var cmd := GetCommand(socket);
      while cmd != ""
        invariant goal == if cmd == "" then At(socket) else Drain(Executed(At(socket), Does(), cmd), Does())
        invariant forall s :: s != socket ==> Untouched(s, old(At(s)))
        decreases |At(socket).cache| + if cmd == "" then 0 else 1
      {
        Answer(socket, cmd);
        cmd := GetCommand(socket);
      }
    }
  }
}
