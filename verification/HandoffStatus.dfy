/**
 With one control at a time the reported status tells the truth: RUNNING and PAUSED agree with
 the last of start(), pause() and resume() that has run in the main thread.
 */
module HandoffStatus {
  import opened Text
  import opened ServiceHandoff
  import opened HandoffSafety

  /** The controls whose callbacks suspend the service or let it run. */
  predicate Mode(c: Code) { c.Startup? || c.Pause? || c.Continue? }

  function LastMode(codes: seq<Code>, called: seq<nat>): Option<Code>
    decreases |called|
  {
    if called == [] then None
    else
      var t := called[|called| - 1];
      if t < |codes| && Mode(CodeOf(codes, t)) then Some(CodeOf(codes, t)) else LastMode(codes, called[..|called| - 1])
  }

  predicate Told(codes: seq<Code>, s: Sys) {
    (s.status == Running ==>
      LastMode(codes, s.called) == Some(Startup) || LastMode(codes, s.called) == Some(Continue)) &&
    (s.status == Paused ==> LastMode(codes, s.called) == Some(Pause))
  }

  predicate Under(p: Phase) { p.Pending? || p.Posted? || p.Asleep? || p.Woken? || p.Back? }

  /** While such a control is under way the status is its pending one (or STOPPED, which the main
      thread may set), and once its callback has run it is the last. */
  ghost predicate UnderWay(codes: seq<Code>, s: Sys)
  {
    (forall t :: 0 <= t < |s.handlers| && Mode(CodeOf(codes, t)) && Under(s.handlers[t]) ==>
      s.status == PendingStatus(CodeOf(codes, t), Unset) || s.status == Stopped) &&
    (forall t :: 0 <= t < |s.handlers| && Mode(CodeOf(codes, t)) && (s.handlers[t].Woken? || s.handlers[t].Back?) ==>
      LastMode(codes, s.called) == Some(CodeOf(codes, t))) &&
    (forall t: nat :: t < |s.handlers| && Mode(CodeOf(codes, t)) && (Serving(s.main, t)) ==>
      LastMode(codes, s.called) == Some(CodeOf(codes, t)))
  }

  ghost predicate Truthful(codes: seq<Code>, s: Sys)
  {
    Told(codes, s) && UnderWay(codes, s)
  }

  lemma DequeueTruthful(codes: seq<Code>, s: Sys)
    requires OneAtATime(codes, s) && Truthful(codes, s) && Enabled(codes, s, Dequeue)
    ensures Truthful(codes, Take(codes, s, Dequeue))
  {
    var t := s.queue[0];
    var r := Take(codes, s, Dequeue);
    assert t in s.queue;
    assert r.called[|r.called| - 1] == t && r.called[..|r.called| - 1] == s.called;
    if Mode(CodeOf(codes, t)) {
      assert LastMode(codes, r.called) == Some(CodeOf(codes, t));
    } else {
      assert LastMode(codes, r.called) == LastMode(codes, s.called);
    }
  }

  lemma WakeTruthful(codes: seq<Code>, s: Sys)
    requires OneAtATime(codes, s) && Truthful(codes, s) && Enabled(codes, s, WakeAll)
    ensures Truthful(codes, Take(codes, s, WakeAll))
  {
    var u := s.main.t;
    assert Serving(s.main, u);
    assert forall t :: 0 <= t < |s.handlers| && s.handlers[t] == Asleep ==> t == u;
  }

  /** A handler that moves on and leaves the status alone. */
  lemma MoveTruthful(codes: seq<Code>, s: Sys, t: nat, p: Phase, r: Sys)
    requires Truthful(codes, s) && t < |s.handlers|
    requires r.handlers == s.handlers[t := p] && r.status == s.status && r.main == s.main && r.called == s.called
    requires Under(p) ==> Under(s.handlers[t])
    requires p.Woken? || p.Back? ==> s.handlers[t].Woken? || s.handlers[t].Back?
    ensures Truthful(codes, r)
  {
  }

  lemma PendingTruthful(codes: seq<Code>, s: Sys, t: nat)
    requires OneAtATime(codes, s) && Truthful(codes, s)
    requires HandlerEnabled(codes, s, SetPending(t))
    ensures Truthful(codes, HandlerStep(codes, s, SetPending(t)))
  {
    assert forall u :: 0 <= u < |s.handlers| && Under(s.handlers[u]) ==> u == t;
  }

  lemma FinalTruthful(codes: seq<Code>, s: Sys, t: nat)
    requires OneAtATime(codes, s) && Truthful(codes, s)
    requires HandlerEnabled(codes, s, SetFinal(t))
    ensures Truthful(codes, HandlerStep(codes, s, SetFinal(t)))
  {
    assert forall u :: 0 <= u < |s.handlers| && Under(s.handlers[u]) ==> u == t;
  }

  lemma HandlerTruthful(codes: seq<Code>, s: Sys, step: Step)
    requires OneAtATime(codes, s) && Truthful(codes, s)
    requires HandlerEnabled(codes, s, step)
    ensures Truthful(codes, HandlerStep(codes, s, step))
  {
    if step.SetPending? {
      PendingTruthful(codes, s, step.t);
    } else if step.SetFinal? {
      FinalTruthful(codes, s, step.t);
    } else {
      var r := HandlerStep(codes, s, step);
      MoveTruthful(codes, s, step.t, r.handlers[step.t], r);
    }
  }

  lemma QuietTruthful(codes: seq<Code>, s: Sys, r: Sys)
    requires Truthful(codes, s)
    requires r.handlers == s.handlers && r.called == s.called
    requires r.status == s.status || r.status == Stopped
    requires forall t: nat :: Serving(r.main, t) ==> Serving(s.main, t)
    ensures Truthful(codes, r)
  {
  }

  lemma StepTruthful(codes: seq<Code>, s: Sys, step: Step)
    requires OneAtATime(codes, s) && Truthful(codes, s) && Enabled(codes, s, step)
    ensures Truthful(codes, Take(codes, s, step))
  {
    if HandlerEnabled(codes, s, step) {
      HandlerTruthful(codes, s, step);
    } else if step.Dequeue? {
      DequeueTruthful(codes, s);
    } else if step.WakeAll? {
      WakeTruthful(codes, s);
    } else {
      QuietTruthful(codes, s, Take(codes, s, step));
    }
  }

  lemma {:induction false} RunTruthful(codes: seq<Code>, s: Sys, steps: seq<Step>)
    requires Inv(s) && OneAtATime(codes, s) && Truthful(codes, s)
    requires Possible(codes, s, steps) && SerialRun(codes, s, steps)
    ensures Truthful(codes, Run(codes, s, steps))
    decreases |steps|
  {
    if steps != [] {
      StepKeepsInv(codes, s, steps[0]);
      StepKeepsOne(codes, s, steps[0]);
      StepTruthful(codes, s, steps[0]);
      RunTruthful(codes, Take(codes, s, steps[0]), steps[1..]);
    }
  }

  // ------------------------------------------------------------------ exactly which status

  predicate Gives(c: Code) { c in {Startup, Stop, Pause, Continue} }

  /** What the last control whose callback ran leaves behind. */
  function StatusAfter(codes: seq<Code>, called: seq<nat>): Status
    decreases |called|
  {
    if called == [] then Unset
    else
      match CodeOf(codes, called[|called| - 1])
      case Startup => Running
      case Continue => Running
      case Pause => Paused
      case Stop => StopPending
      case _ => StatusAfter(codes, called[..|called| - 1])
  }

  /** What the status is while such a control is under way. */
  function StatusUnder(c: Code): Status {
    match c
    case Startup => StartPending
    case Stop => StopPending
    case Pause => PausePending
    case Continue => ContinuePending
    case _ => Unset
  }

  /** Main has set STOPPED, or is about to leave for good. */
  predicate Over(m: MainPhase) { m.Leaving? || m.Gone? }

  predicate IsUnder(codes: seq<Code>, s: Sys, t: nat) {
    t < |s.handlers| && Under(s.handlers[t]) && Gives(CodeOf(codes, t))
  }

  ghost predicate Settled(codes: seq<Code>, s: Sys) {
    !Over(s.main) ==>
      (forall t: nat :: IsUnder(codes, s, t) ==> s.status == StatusUnder(CodeOf(codes, t))) &&
      ((forall t: nat :: !IsUnder(codes, s, t)) ==> s.status == StatusAfter(codes, s.called))
  }

  ghost predicate LastCalled(codes: seq<Code>, s: Sys) {
    forall t: nat :: IsUnder(codes, s, t) && (Serving(s.main, t) || Awake(s.handlers[t])) ==>
      StatusAfter(codes, s.called) == StatusAfter(codes, [t])
  }

  ghost predicate Exact(codes: seq<Code>, s: Sys) { Settled(codes, s) && LastCalled(codes, s) }

  lemma CalledNext(codes: seq<Code>, called: seq<nat>, t: nat)
    ensures StatusAfter(codes, called + [t]) ==
            if Gives(CodeOf(codes, t)) then StatusAfter(codes, [t]) else StatusAfter(codes, called)
  {
    var all := called + [t];
    assert all[|all| - 1] == t && all[..|all| - 1] == called && [t][0] == t;
  }

  lemma DequeueExact(codes: seq<Code>, s: Sys)
    requires OneAtATime(codes, s) && Exact(codes, s) && Enabled(codes, s, Dequeue)
    ensures Exact(codes, Take(codes, s, Dequeue))
  {
    var t := s.queue[0];
    assert t in s.queue;
    CalledNext(codes, s.called, t);
    var r := Take(codes, s, Dequeue);
    assert Waits(CodeOf(codes, t)) || !Gives(CodeOf(codes, t));
    forall u: nat | IsUnder(codes, s, u) ensures u == t {
    }
    assert IsUnder(codes, s, t) <==> Gives(CodeOf(codes, t));
    assert forall u: nat :: IsUnder(codes, r, u) <==> IsUnder(codes, s, u);
  }

  /** Sleepers that wake are under way as before. */
  lemma WakeExact(codes: seq<Code>, s: Sys)
    requires OneAtATime(codes, s) && Exact(codes, s) && Enabled(codes, s, WakeAll)
    ensures Exact(codes, Take(codes, s, WakeAll))
  {
    var r := Take(codes, s, WakeAll);
    assert Serving(s.main, s.main.t);
    assert forall t: nat :: IsUnder(codes, r, t) <==> IsUnder(codes, s, t);
    forall t: nat | IsUnder(codes, r, t) && Awake(r.handlers[t])
      ensures StatusAfter(codes, r.called) == StatusAfter(codes, [t])
    {
      if s.handlers[t] == Asleep {
        assert Active(s.handlers[t]) && Active(s.handlers[s.main.t]) && t == s.main.t;
      }
    }
  }

  lemma MoveExact(codes: seq<Code>, s: Sys, t: nat, p: Phase, r: Sys)
    requires Exact(codes, s) && t < |s.handlers|
    requires r.handlers == s.handlers[t := p] && r.status == s.status && r.main == s.main && r.called == s.called
    requires Under(p) == Under(s.handlers[t]) || !Gives(CodeOf(codes, t))
    requires Awake(p) ==> Awake(s.handlers[t]) || !Gives(CodeOf(codes, t))
    ensures Exact(codes, r)
  {
    assert forall u: nat :: IsUnder(codes, r, u) <==> IsUnder(codes, s, u);
  }

  lemma OnlyOne(codes: seq<Code>, s: Sys, t: nat)
    requires OneAtATime(codes, s) && t < |s.handlers| && Active(s.handlers[t])
    ensures forall u: nat :: IsUnder(codes, s, u) ==> u == t
  {
  }

  lemma PendingExact(codes: seq<Code>, s: Sys, t: nat)
    requires OneAtATime(codes, s) && Exact(codes, s) && HandlerEnabled(codes, s, SetPending(t))
    ensures Exact(codes, HandlerStep(codes, s, SetPending(t)))
  {
    var r := HandlerStep(codes, s, SetPending(t));
    OnlyOne(codes, s, t);
    IdleQueue(codes, s, t);
    forall u: nat | u != t ensures !IsUnder(codes, r, u) {
      assert !IsUnder(codes, s, u);
    }
    assert IsUnder(codes, r, t) <==> Gives(CodeOf(codes, t));
    assert forall u: nat :: !IsUnder(codes, s, u);
  }

  lemma FinalExact(codes: seq<Code>, s: Sys, t: nat)
    requires OneAtATime(codes, s) && Exact(codes, s) && HandlerEnabled(codes, s, SetFinal(t))
    ensures Exact(codes, HandlerStep(codes, s, SetFinal(t)))
  {
    var r := HandlerStep(codes, s, SetFinal(t));
    OnlyOne(codes, s, t);
    forall u: nat ensures !IsUnder(codes, r, u) {
      assert u != t ==> !IsUnder(codes, s, u);
    }
    if Gives(CodeOf(codes, t)) {
      assert IsUnder(codes, s, t) && [t][0] == t;
    } else {
      assert !IsUnder(codes, s, t);
    }
  }

  lemma HandlerExact(codes: seq<Code>, s: Sys, step: Step)
    requires OneAtATime(codes, s) && Exact(codes, s) && HandlerEnabled(codes, s, step)
    ensures Exact(codes, HandlerStep(codes, s, step))
  {
    if step.SetPending? {
      PendingExact(codes, s, step.t);
    } else if step.SetFinal? {
      FinalExact(codes, s, step.t);
    } else {
      var r := HandlerStep(codes, s, step);
      MoveExact(codes, s, step.t, r.handlers[step.t], r);
    }
  }

  /** The main thread moves on, or the starting thread. */
  lemma OtherExact(codes: seq<Code>, s: Sys, step: Step)
    requires Exact(codes, s) && Enabled(codes, s, step) && !HandlerEnabled(codes, s, step)
    requires !step.Dequeue? && !step.WakeAll?
    ensures Exact(codes, Take(codes, s, step))
  {
    var r := Take(codes, s, step);
    assert forall t: nat :: IsUnder(codes, r, t) <==> IsUnder(codes, s, t);
  }

  lemma StepExact(codes: seq<Code>, s: Sys, step: Step)
    requires OneAtATime(codes, s) && Exact(codes, s) && Enabled(codes, s, step)
    ensures Exact(codes, Take(codes, s, step))
  {
    if HandlerEnabled(codes, s, step) {
      HandlerExact(codes, s, step);
    } else if step.Dequeue? {
      DequeueExact(codes, s);
    } else if step.WakeAll? {
      WakeExact(codes, s);
    } else {
      OtherExact(codes, s, step);
    }
  }

  lemma {:induction false} RunExact(codes: seq<Code>, s: Sys, steps: seq<Step>)
    requires Inv(s) && OneAtATime(codes, s) && Exact(codes, s)
    requires Possible(codes, s, steps) && SerialRun(codes, s, steps)
    ensures OneAtATime(codes, Run(codes, s, steps)) && Exact(codes, Run(codes, s, steps))
    decreases |steps|
  {
    if steps != [] {
      StepKeepsInv(codes, s, steps[0]);
      StepKeepsOne(codes, s, steps[0]);
      StepExact(codes, s, steps[0]);
      RunExact(codes, Take(codes, s, steps[0]), steps[1..]);
    }
  }

  /** Every control that came has returned. */
  predicate Quiet(s: Sys) { forall t :: 0 <= t < |s.handlers| ==> s.handlers[t] == Away || s.handlers[t] == Returned }

  /** Until the main thread sets STOPPED: when all controls have returned, the status is the one that
      the last of STARTUP, STOP, PAUSE and CONTINUE leaves. */
  predicate RestTells(codes: seq<Code>, s: Sys) {
    !Over(s.main) && Quiet(s) ==> s.status == StatusAfter(codes, s.called)
  }

  /** And while a control is under way it is the pending status of that one, if it has one. */
  predicate HandlerTells(codes: seq<Code>, s: Sys, t: nat)
    requires t < |s.handlers|
  {
    !Over(s.main) && Under(s.handlers[t]) ==>
      match CodeOf(codes, t)
      case Startup => s.status == StartPending
      case Stop => s.status == StopPending
      case Pause => s.status == PausePending
      case Continue => s.status == ContinuePending
      case _ => s.status == StatusAfter(codes, s.called)
  }

  predicate ReturnTells(codes: seq<Code>, s: Sys, t: nat)
    requires t < |s.handlers|
  {
    s.handlers[t] == Returned ==> t in s.called || CodeOf(codes, t) in {Interrogate, Other}
  }

  lemma ExactRest(codes: seq<Code>, s: Sys)
    requires Exact(codes, s)
    ensures RestTells(codes, s)
  {
    if Quiet(s) {
      assert forall u: nat :: !IsUnder(codes, s, u);
    }
  }

  lemma ExactHandler(codes: seq<Code>, s: Sys, t: nat)
    requires OneAtATime(codes, s) && Exact(codes, s) && t < |s.handlers|
    ensures HandlerTells(codes, s, t) && ReturnTells(codes, s, t)
  {
    if Under(s.handlers[t]) {
      OnlyOne(codes, s, t);
      assert IsUnder(codes, s, t) <==> Gives(CodeOf(codes, t));
    }
  }

  /** Over all runs with one control at a time. RUNNING only if the last of start(), pause() and
      resume() that ran was start() or resume(), PAUSED only if it was pause(); and RUNNING and
      PAUSED appear whenever they should, as do the pending statuses. A control that has returned
      has had its callback, unless it has none. */
  lemma StatusTellsTruth(codes: seq<Code>, steps: seq<Step>)
    requires Possible(codes, Init(codes), steps) && SerialRun(codes, Init(codes), steps)
    ensures var s := Run(codes, Init(codes), steps);
            && Told(codes, s) && RestTells(codes, s)
            && forall t: nat :: t < |s.handlers| ==> HandlerTells(codes, s, t) && ReturnTells(codes, s, t)
  {
    var s := Run(codes, Init(codes), steps);
    RunTruthful(codes, Init(codes), steps);
    RunExact(codes, Init(codes), steps);
    ExactRest(codes, s);
    forall t: nat | t < |s.handlers| ensures HandlerTells(codes, s, t) && ReturnTells(codes, s, t) {
      ExactHandler(codes, s, t);
    }
  }

  predicate SetsNone(steps: seq<Step>) {
    forall i :: 0 <= i < |steps| ==> !steps[i].SetPending? && !steps[i].SetFinal?
  }

  lemma {:induction false} StatusStays(codes: seq<Code>, s: Sys, steps: seq<Step>)
    requires Possible(codes, s, steps) && SetsNone(steps) && s.status == Stopped
    ensures Run(codes, s, steps).status == Stopped
    decreases |steps|
  {
    if steps != [] {
      assert !steps[0].SetPending? && !steps[0].SetFinal?;
      forall i | 0 <= i < |steps[1..]| ensures !steps[1..][i].SetPending? && !steps[1..][i].SetFinal? {
        assert steps[1..][i] == steps[i + 1];
      }
      StatusStays(codes, Take(codes, s, steps[0]), steps[1..]);
    }
  }

  /** When exec() has returned the status is STOPPED, and it stays so unless a handler is still to
      set its own, as the one of a control that came after STOP may do. */
  lemma StoppedAtTheEnd(codes: seq<Code>, s: Sys, steps: seq<Step>)
    requires Possible(codes, s, [SetStopped] + steps) && SetsNone(steps)
    ensures Run(codes, s, [SetStopped] + steps).status == Stopped
  {
    assert ([SetStopped] + steps)[0] == SetStopped && ([SetStopped] + steps)[1..] == steps;
    StatusStays(codes, Take(codes, s, SetStopped), steps);
  }
}
