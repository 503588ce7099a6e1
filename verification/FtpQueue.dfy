/**
 The queue on its own: commands that need no server are drained in one go.
 */
module FtpQueue {
  import opened FtpTypes
  import opened FtpSpec

  datatype Mark = S(id: nat) | F(id: nat, failed: bool) | D(failed: bool)

  function MarkOf(s: Signal): Mark {
    match s
    case Started(id) => S(id)
    case Finished(cmd, failed, _) => F(cmd.id, failed)
    case Done(failed) => D(failed)
  }

  function Outline(t: seq<Signal>): seq<Mark> {
    if t == [] then [] else Outline(t[..|t| - 1]) + [MarkOf(t[|t| - 1])]
  }

  lemma OutlineAppend(t: seq<Signal>, s: Signal)
    ensures Outline(t + [s]) == Outline(t) + [MarkOf(s)]
  {
    assert (t + [s])[..|t|] == t;
  }

  /** One pair for each command and a single done. */
  function Drained(cmds: seq<Cmd>): seq<Mark> {
    if cmds == [] then [D(false)]
    else [S(cmds[0].id), F(cmds[0].id, false)] + Drained(cmds[1..])
  }

  predicate Instant(k: Kind) { k in {SetTransferMode, SetProxy} }

  /** All that is enqueued, and all that the slots are going to enqueue, needs no server. */
  predicate AllInstant(f: Ftp) {
    && (forall i :: 0 <= i < |f.pending| ==> Instant(f.pending[i].kind))
    && (forall i, j :: 0 <= i < |f.plan| && 0 <= j < |f.plan[i]| ==> Instant(f.plan[i][j].kind))
  }

  function First(plan: seq<seq<Request>>): seq<Request> { if plan == [] then [] else plan[0] }
  function Others(plan: seq<seq<Request>>): seq<seq<Request>> { if plan == [] then [] else plan[1..] }

  /** The commands in the order in which they finish: each finished command lets its slot add to
      the end of the queue. */
  function Order(cmds: seq<Cmd>, plan: seq<seq<Request>>, id: nat): seq<Cmd>
    decreases |cmds| + Planned(plan)
  {
    if cmds == [] then []
    else [cmds[0]] + Order(cmds[1..] + Number(First(plan), id), Others(plan), id + |First(plan)|)
  }

  function Flatten(plan: seq<seq<Request>>): seq<Request> {
    if plan == [] then [] else plan[0] + Flatten(plan[1..])
  }

  function Min(a: nat, b: nat): nat { if a < b then a else b }

  lemma {:induction false} OrderAlone(cmds: seq<Cmd>, id: nat)
    ensures Order(cmds, [], id) == cmds
    decreases |cmds|
  {
    if cmds != [] {
      assert cmds[1..] + Number([], id) == cmds[1..];
      OrderAlone(cmds[1..], id);
    }
  }

  /** First come, first served: what was in the queue, then what each slot added, in the order
      of the slots and numbered on; as many slots add as commands finish. */
  lemma {:induction false} OrderIsFifo(cmds: seq<Cmd>, plan: seq<seq<Request>>, id: nat)
    ensures Order(cmds, plan, id) == Fifo(cmds, plan, id, |Order(cmds, plan, id)|)
    decreases |cmds| + Planned(plan)
  {
    if cmds == [] || plan == [] {
      OrderAlone(cmds, id);
      FifoAlone(cmds, plan, id, |Order(cmds, plan, id)|);
    } else {
      var next := cmds[1..] + Number(plan[0], id);
      OrderIsFifo(next, plan[1..], id + |plan[0]|);
      var later := Order(next, plan[1..], id + |plan[0]|);
      assert Order(cmds, plan, id) == [cmds[0]] + later;
      FifoFirst(cmds, plan, id, |later|);
    }
  }

  /** The queue and what the first n slots add. */
  function Fifo(cmds: seq<Cmd>, plan: seq<seq<Request>>, id: nat, n: nat): seq<Cmd> {
    cmds + Number(Flatten(plan[..Min(|plan|, n)]), id)
  }

  lemma FifoAlone(cmds: seq<Cmd>, plan: seq<seq<Request>>, id: nat, n: nat)
    requires plan == [] || n == 0
    ensures Fifo(cmds, plan, id, n) == cmds
  {
    assert plan[..Min(|plan|, n)] == [];
  }

  lemma FifoFirst(cmds: seq<Cmd>, plan: seq<seq<Request>>, id: nat, n: nat)
    requires cmds != [] && plan != []
    ensures Fifo(cmds, plan, id, n + 1) ==
            [cmds[0]] + Fifo(cmds[1..] + Number(plan[0], id), plan[1..], id + |plan[0]|, n)
  {
    var k := Min(|plan|, n + 1);
    FlattenFirst(plan, k);
    FifoStep(cmds, plan[0], Flatten(plan[1..][..k - 1]), id);
  }

  lemma FlattenFirst(plan: seq<seq<Request>>, k: nat)
    requires 0 < k <= |plan|
    ensures Flatten(plan[..k]) == plan[0] + Flatten(plan[1..][..k - 1])
  {
    assert plan[..k][1..] == plan[1..][..k - 1];
  }

  lemma FifoStep(cmds: seq<Cmd>, a: seq<Request>, b: seq<Request>, id: nat)
    requires cmds != []
    ensures [cmds[0]] + ((cmds[1..] + Number(a, id)) + Number(b, id + |a|)) == cmds + Number(a + b, id)
  {
    NumberAppend(a, b, id);
    assert [cmds[0]] + cmds[1..] == cmds;
  }

  lemma NumberAppend(a: seq<Request>, b: seq<Request>, id: nat)
    ensures Number(a + b, id) == Number(a, id) + Number(b, id + |a|)
  {
  }

  /** Any number of SetTransferMode and SetProxy commands is worked off in one call, which ends,
      although the slots go on enqueueing such commands: each gets its pair of signals, in order,
      done(false) comes once, and nothing is sent. */
  lemma {:induction false} QueueDrains(c: Client)
    requires c.ftp.pending != [] && AllInstant(c.ftp)
    ensures Drains(c, StartNextCommand(c))
    decreases Work(c)
  {
    var q := AfterHead(c);
    HeadStarts(c);
    HeadDrains(c);
    if q.ftp.pending == [] {
      LastDrains(q);
      MoreDrains(c, Emit(q, Done(false)));
    } else {
      QueueDrains(q);
      MoreDrains(c, StartNextCommand(q));
    }
  }

  lemma LastDrains(q: Client)
    requires q.ftp.pending == []
    ensures Drains(q, Emit(q, Done(false)))
  {
    OutlineAppend(q.past.trace, Done(false));
  }

  lemma MoreDrains(c: Client, r: Client)
    requires c.ftp.pending != [] && AllInstant(c.ftp) && Drains(AfterHead(c), r)
    ensures Drains(c, r)
  {
    var q := AfterHead(c);
    HeadDrains(c);
    HeadSignals(c);
    MoreOutlined(c.ftp, q.ftp, Outline(c.past.trace), Outline(q.past.trace));
  }

  lemma MoreOutlined(f: Ftp, g: Ftp, t: seq<Mark>, u: seq<Mark>)
    requires f.pending != [] && g.pending == f.pending[1..] + Number(First(f.plan), f.nextId)
    requires g.plan == Others(f.plan) && g.nextId == f.nextId + |First(f.plan)|
    requires u == t + [S(f.pending[0].id), F(f.pending[0].id, false)]
    ensures u + Drained(Order(g.pending, g.plan, g.nextId)) ==
            t + Drained(Order(f.pending, f.plan, f.nextId))
  {
    OrderStep(f.pending, f.plan, f.nextId);
    Associates(t, [S(f.pending[0].id), F(f.pending[0].id, false)],
               Drained(Order(g.pending, g.plan, g.nextId)));
  }

  lemma Associates(t: seq<Mark>, h: seq<Mark>, d: seq<Mark>)
    ensures (t + h) + d == t + (h + d)
  {
  }

  lemma OrderStep(cmds: seq<Cmd>, plan: seq<seq<Request>>, id: nat)
    requires cmds != []
    ensures Drained(Order(cmds, plan, id)) ==
            [S(cmds[0].id), F(cmds[0].id, false)] +
            Drained(Order(cmds[1..] + Number(First(plan), id), Others(plan), id + |First(plan)|))
  {
    var o := Order(cmds, plan, id);
    assert o[1..] == Order(cmds[1..] + Number(First(plan), id), Others(plan), id + |First(plan)|);
  }

  ghost predicate Drains(c: Client, r: Client) {
    && r.ftp.pending == []
    && Outline(r.past.trace) ==
       Outline(c.past.trace) + Drained(Order(c.ftp.pending, c.ftp.plan, c.ftp.nextId))
    && r.pi == c.pi.(extended := r.pi.extended) && r.net == c.net && r.dtp == c.dtp
  }

  /** The first command of such a queue is about to finish. */
  function Ready(c: Client): (p: Client)
    requires c.ftp.pending != []
    ensures |p.ftp.pending| == |c.ftp.pending| && Work(p) == Work(c)
  {
    var s := Prepared(Begun(c));
    if s.ftp.pending[0].kind == SetProxy then ProxySet(s) else s
  }

  /** The state after it has finished. */
  function AfterHead(c: Client): (q: Client)
    requires c.ftp.pending != []
    ensures Work(q) == Work(c) - 1
  {
    var p := Ready(c);
    Popped(p, false, AccountOf(p))
  }

  lemma HeadStarts(c: Client)
    requires c.ftp.pending != [] && Instant(c.ftp.pending[0].kind)
    ensures var q := AfterHead(c);
            StartNextCommand(c) == if q.ftp.pending == [] then Emit(q, Done(false)) else StartNextCommand(q)
  {
    assert StartNextCommand(c) == PiFinished(Ready(c));
  }

  lemma ReadyQueue(c: Client)
    requires c.ftp.pending != [] && Instant(c.ftp.pending[0].kind)
    ensures var p := Ready(c);
            && p.ftp == c.ftp.(pending := p.ftp.pending, proxyHost := p.ftp.proxyHost)
            && p.ftp.pending[1..] == c.ftp.pending[1..] && p.ftp.plan == c.ftp.plan
            && p.ftp.nextId == c.ftp.nextId && p.pi == c.pi && p.net == c.net && p.dtp == c.dtp
            && p.ftp.pending[0].id == c.ftp.pending[0].id
            && p.past == c.past.(trace := c.past.trace + [Started(c.ftp.pending[0].id)])
  {
  }

  /** What is left in the queue when its head is popped, and all the rest. */
  lemma PoppedTail(p: Client, failed: bool, a: Account)
    requires p.ftp.pending != []
    ensures var q := Popped(p, failed, a);
            && q.ftp.pending == p.ftp.pending[1..] + Number(First(p.ftp.plan), p.ftp.nextId)
            && q.ftp.plan == Others(p.ftp.plan) && q.ftp.nextId == p.ftp.nextId + |First(p.ftp.plan)|
            && q.ftp == p.ftp.(pending := q.ftp.pending, plan := q.ftp.plan, nextId := q.ftp.nextId)
            && q.pi == p.pi.(extended := q.pi.extended) && q.net == p.net && q.dtp == p.dtp
            && q.past == p.past.(trace := p.past.trace + [Finished(p.ftp.pending[0], failed, a)])
  {
    var n := Number(First(p.ftp.plan), p.ftp.nextId);
    assert (p.ftp.pending + n)[1..] == p.ftp.pending[1..] + n;
    assert p.ftp.plan == [] ==> n == [] && p.ftp.pending[1..] + n == p.ftp.pending[1..];
  }

  lemma HeadDrains(c: Client)
    requires c.ftp.pending != [] && AllInstant(c.ftp)
    ensures var q := AfterHead(c);
            && q.ftp.pending == c.ftp.pending[1..] + Number(First(c.ftp.plan), c.ftp.nextId)
            && q.ftp.plan == Others(c.ftp.plan) && q.ftp.nextId == c.ftp.nextId + |First(c.ftp.plan)|
            && AllInstant(q.ftp)
            && q.pi == c.pi.(extended := q.pi.extended) && q.net == c.net && q.dtp == c.dtp
  {
    ReadyQueue(c);
    PoppedInstant(Ready(c), c.ftp);
  }

  lemma PoppedInstant(p: Client, f: Ftp)
    requires p.ftp.pending != [] && f.pending != [] && p.ftp.pending[1..] == f.pending[1..]
    requires p.ftp.plan == f.plan && p.ftp.nextId == f.nextId && AllInstant(f)
    ensures var q := Popped(p, false, AccountOf(p));
            && q.ftp.pending == f.pending[1..] + Number(First(f.plan), f.nextId)
            && q.ftp.plan == Others(f.plan) && q.ftp.nextId == f.nextId + |First(f.plan)|
            && AllInstant(q.ftp)
  {
    var q := Popped(p, false, AccountOf(p));
    assert q.ftp.pending == f.pending[1..] + Number(First(f.plan), f.nextId);
    forall i | 0 <= i < |q.ftp.pending| ensures Instant(q.ftp.pending[i].kind) {
      if i < |f.pending| - 1 {
        assert q.ftp.pending[i] == f.pending[i + 1];
      } else {
        assert Instant(f.plan[0][i - (|f.pending| - 1)].kind);
      }
    }
  }

  lemma HeadSignals(c: Client)
    requires c.ftp.pending != [] && AllInstant(c.ftp)
    ensures Outline(AfterHead(c).past.trace) ==
            Outline(c.past.trace) + [S(c.ftp.pending[0].id), F(c.ftp.pending[0].id, false)]
  {
    var p := Ready(c);
    ReadyQueue(c);
    OutlineAppend(c.past.trace, Started(c.ftp.pending[0].id));
    OutlineAppend(p.past.trace, Finished(p.ftp.pending[0], false, AccountOf(p)));
  }
}
