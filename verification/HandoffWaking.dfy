/**
 Who is woken: a handler whose callback has run is never left asleep, and a handler sleeps for
 ever only behind STOP or SHUTDOWN, when it has gone to sleep after the last wake-up.
 */
module HandoffWaking {
  import opened ServiceHandoff
  import opened HandoffSafety

  predicate Ends(c: Code) { c.Stop? || c.Shutdown? }

  predicate Leaves(m: MainPhase) { m.Exiting? || m.Leaving? || m.Gone? }

  /** The handler has posted its event. */
  predicate Behind(p: Phase) { p.Posted? || p.Asleep? || Awake(p) }

  predicate Sleeps(p: Phase) { p.Posted? || p.Asleep? }

  /** Posted events are those of waiting handlers, and so are those that were called. */
  ghost predicate EventsRight(codes: seq<Code>, s: Sys) {
    && (forall t :: t in s.queue ==> Comes(s, t) && Waits(CodeOf(codes, t)))
    && (forall t :: t in s.called ==> Comes(s, t) && Waits(CodeOf(codes, t)))
    && (forall t: nat :: Serving(s.main, t) ==> t in s.called)
  }

  predicate Comes(s: Sys, t: nat) { t < |s.handlers| && Behind(s.handlers[t]) }

  /** Who was called and sleeps is being served; nobody is awake before somebody was called. */
  predicate SleepRight(codes: seq<Code>, s: Sys) {
    && (forall t :: 0 <= t < |s.handlers| && Sleeps(s.handlers[t]) && t in s.called ==> Serving(s.main, t))
    && (forall t :: 0 <= t < |s.handlers| && (Sleeps(s.handlers[t]) || s.handlers[t].Woken?) ==>
          Waits(CodeOf(codes, t)))
    && (forall t :: 0 <= t < |s.handlers| && Awake(s.handlers[t]) && Waits(CodeOf(codes, t)) ==>
          s.called != [])
  }

  /** The main thread leaves its loop only after STOP or SHUTDOWN was served. */
  predicate EndRight(codes: seq<Code>, s: Sys) {
    s.quit || Leaves(s.main) ==> s.quit && exists u :: u in s.called && Ends(CodeOf(codes, u))
  }

  ghost predicate Waking(codes: seq<Code>, s: Sys) {
    EventsRight(codes, s) && SleepRight(codes, s) && EndRight(codes, s)
  }

  lemma HandlerKeepsEvents(codes: seq<Code>, s: Sys, step: Step)
    requires EventsRight(codes, s) && HandlerEnabled(codes, s, step)
    ensures EventsRight(codes, HandlerStep(codes, s, step))
  {
    var r := HandlerStep(codes, s, step);
    MoveKeepsEvents(codes, s, step.t, r.handlers[step.t], r);
  }

  lemma MoveKeepsEvents(codes: seq<Code>, s: Sys, t: nat, p: Phase, r: Sys)
    requires EventsRight(codes, s) && t < |s.handlers|
    requires r.handlers == s.handlers[t := p] && r.main == s.main && r.called == s.called
    requires r.queue == s.queue || (r.queue == s.queue + [t] && p == Posted && Waits(CodeOf(codes, t)))
    requires Behind(s.handlers[t]) ==> Behind(p)
    ensures EventsRight(codes, r)
  {
    assert forall u: nat :: u < |s.handlers| && Behind(s.handlers[u]) ==> Behind(r.handlers[u]);
  }

  lemma HandlerKeepsSleep(codes: seq<Code>, s: Sys, step: Step)
    requires EventsRight(codes, s) && SleepRight(codes, s) && HandlerEnabled(codes, s, step)
    ensures SleepRight(codes, HandlerStep(codes, s, step))
  {
    var r := HandlerStep(codes, s, step);
    MoveKeepsSleep(codes, s, step.t, r.handlers[step.t], r);
  }

  lemma MoveKeepsSleep(codes: seq<Code>, s: Sys, t: nat, p: Phase, r: Sys)
    requires SleepRight(codes, s) && t < |s.handlers|
    requires r.handlers == s.handlers[t := p] && r.main == s.main && r.called == s.called
    requires Sleeps(p) ==> Waits(CodeOf(codes, t)) && (Sleeps(s.handlers[t]) || t !in s.called)
    requires Awake(p) && Waits(CodeOf(codes, t)) ==> Awake(s.handlers[t])
    requires !p.Woken?
    ensures SleepRight(codes, r)
  {
  }

  lemma DequeueKeepsWaking(codes: seq<Code>, s: Sys)
    requires Waking(codes, s) && Enabled(codes, s, Dequeue)
    ensures Waking(codes, Take(codes, s, Dequeue))
  {
    var r := Take(codes, s, Dequeue);
    var t := s.queue[0];
    assert t in s.queue && s.queue == [t] + r.queue && t in r.called;
  }

  lemma WakeKeepsWaking(codes: seq<Code>, s: Sys)
    requires Inv(s) && Waking(codes, s) && Enabled(codes, s, WakeAll)
    ensures Waking(codes, Take(codes, s, WakeAll))
  {
    assert Serving(s.main, s.main.t);
  }

  lemma QuietKeepsWaking(codes: seq<Code>, s: Sys, r: Sys)
    requires Waking(codes, s) && r.handlers == s.handlers && r.queue == s.queue && r.called == s.called
    requires forall t: nat :: Serving(r.main, t) <==> Serving(s.main, t)
    requires r.quit == s.quit && (Leaves(r.main) ==> s.quit)
    ensures Waking(codes, r)
  {
  }

  lemma StepKeepsWaking(codes: seq<Code>, s: Sys, step: Step)
    requires Inv(s) && Waking(codes, s) && Enabled(codes, s, step)
    ensures Waking(codes, Take(codes, s, step))
  {
    if HandlerEnabled(codes, s, step) {
      HandlerKeepsEvents(codes, s, step);
      HandlerKeepsSleep(codes, s, step);
    } else if step.Dequeue? {
      DequeueKeepsWaking(codes, s);
    } else if step.WakeAll? {
      WakeKeepsWaking(codes, s);
    } else {
      QuietKeepsWaking(codes, s, Take(codes, s, step));
    }
  }

  lemma {:induction false} RunKeepsWaking(codes: seq<Code>, s: Sys, steps: seq<Step>)
    requires Inv(s) && Waking(codes, s) && Possible(codes, s, steps)
    ensures Waking(codes, Run(codes, s, steps))
    decreases |steps|
  {
    if steps != [] {
      StepKeepsInv(codes, s, steps[0]);
      StepKeepsWaking(codes, s, steps[0]);
      RunKeepsWaking(codes, Take(codes, s, steps[0]), steps[1..]);
    }
  }

  /** The conclusions that hold in every reachable state. */
  ghost predicate NobodyForgotten(codes: seq<Code>, s: Sys) {
    && (forall t :: 0 <= t < |s.handlers| && s.handlers[t] == Asleep ==>
          t in s.queue || Serving(s.main, t) || s.main == Gone)
    && (forall t :: 0 <= t < |s.handlers| && s.handlers[t] == Asleep && t in s.called ==> Serving(s.main, t))
    && (s.main == Gone ==> exists u :: u in s.called && Ends(CodeOf(codes, u)))
    && (forall t :: 0 <= t < |s.handlers| && s.handlers[t] != Away ==> s.installed || s.main == Gone)
  }

  lemma InvForgetsNobody(codes: seq<Code>, s: Sys)
    requires Inv(s) && Waking(codes, s)
    ensures NobodyForgotten(codes, s)
  {
  }

  /** Any number of handlers, any interleaving: a sleeper whose callback has run is in the hands
      of the main thread, which is about to wake it, STOP and SHUTDOWN included; any other has its
      event still to be served, unless the main thread has gone, and it goes only after STOP or
      SHUTDOWN was served; and nobody is in the handler before the object that receives the
      events has been made. */
  lemma NoLostWakeUp(codes: seq<Code>, steps: seq<Step>)
    requires Possible(codes, Init(codes), steps)
    ensures NobodyForgotten(codes, Run(codes, Init(codes), steps))
  {
    RunKeepsInv(codes, Init(codes), steps);
    RunKeepsWaking(codes, Init(codes), steps);
    InvForgetsNobody(codes, Run(codes, Init(codes), steps));
  }

  // ------------------------------------------------------------------------ the last wake-up

  /** The handler goes to sleep in these steps, or slept before them, and no wake-up follows. */
  ghost predicate SleptSince(steps: seq<Step>, t: nat, before: bool) {
    (before && WakeAll !in steps) ||
    exists i :: 0 <= i < |steps| && steps[i] == Wait(t) && WakeAll !in steps[i + 1..]
  }

  lemma SleptOn(step: Step, rest: seq<Step>, t: nat, before: bool)
    requires SleptSince([step] + rest, t, before)
    ensures SleptSince(rest, t, step == Wait(t) || (before && step != WakeAll))
  {
    var all := [step] + rest;
    assert all[0] == step && all[1..] == rest;
    assert forall x :: x in rest ==> x in all;
    if !(before && WakeAll !in all) {
      var i :| 0 <= i < |all| && all[i] == Wait(t) && WakeAll !in all[i + 1..];
      if i > 0 {
        assert rest[i - 1] == Wait(t) && rest[i - 1 + 1..] == all[i + 1..];
      }
    }
  }

  lemma SleptBefore(step: Step, rest: seq<Step>, t: nat, before: bool)
    requires SleptSince(rest, t, step == Wait(t) || (before && step != WakeAll))
    ensures SleptSince([step] + rest, t, before)
  {
    var all := [step] + rest;
    assert all[0] == step && all[1..] == rest;
    if (step == Wait(t) || (before && step != WakeAll)) && WakeAll !in rest {
      if step == Wait(t) {
        assert WakeAll !in all[0 + 1..];
      }
    } else {
      var i :| 0 <= i < |rest| && rest[i] == Wait(t) && WakeAll !in rest[i + 1..];
      assert all[i + 1] == Wait(t) && all[i + 1 + 1..] == rest[i + 1..];
    }
  }

  lemma StepSleeps(codes: seq<Code>, s: Sys, step: Step, t: nat)
    requires Enabled(codes, s, step)
    ensures At(Take(codes, s, step), t, Asleep) <==>
            step == Wait(t) || (At(s, t, Asleep) && step != WakeAll)
  {
  }

  /** After any run a handler is asleep if and only if it went to sleep after the last wake-up. */
  lemma {:induction false} AsleepSinceWakeUp(codes: seq<Code>, s: Sys, steps: seq<Step>, t: nat)
    requires Possible(codes, s, steps)
    ensures At(Run(codes, s, steps), t, Asleep) <==> SleptSince(steps, t, At(s, t, Asleep))
    decreases |steps|
  {
    if steps != [] {
      StepSleeps(codes, s, steps[0], t);
      AsleepSinceWakeUp(codes, Take(codes, s, steps[0]), steps[1..], t);
      assert steps == [steps[0]] + steps[1..];
      if SleptSince(steps, t, At(s, t, Asleep)) {
        SleptOn(steps[0], steps[1..], t, At(s, t, Asleep));
      } else if At(Run(codes, s, steps), t, Asleep) {
        SleptBefore(steps[0], steps[1..], t, At(s, t, Asleep));
      }
    }
  }
}
