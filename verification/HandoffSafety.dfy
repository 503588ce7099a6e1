/**
 What every reachable state of the hand-off satisfies: the mutex, the start-up order and the
 events are right; and with one control at a time a handler goes on only after its own callback.
 */
module HandoffSafety {
  import opened ServiceHandoff

  predicate Holds(p: Phase) { p.Inside? || p.Pending? || p.Posted? || p.Back? || p.Done? }

  predicate HasHandler(m: MainPhase) {
    m.Releasing? || m.Loop? || m.Called? || m.Holding? || m.Waked? || m.Exiting? || m.Leaving?
  }

  /** start() has released the second semaphore. */
  predicate Ready(m: MainPhase) { (HasHandler(m) && !m.Releasing?) || m.Gone? }

  predicate Awake(p: Phase) { p.Woken? || p.Back? || p.Done? || p.Out? || p.Returned? }

  predicate Serving(m: MainPhase, t: nat) { m == Called(t) || m == Holding(t) }

  predicate MutexRight(s: Sys) {
    (forall t :: 0 <= t < |s.handlers| ==> (Holds(s.handlers[t]) <==> s.mutex == By(t))) &&
    (s.mutex == ByMain <==> s.main.Holding? || s.main.Waked?) &&
    (s.mutex.By? ==> s.mutex.t < |s.handlers|)
  }

  predicate StartRight(s: Sys) {
    (s.installed <==> HasHandler(s.main)) &&
    (s.sem2 > 0 ==> Ready(s.main)) &&
    (s.service == Told && Ready(s.main) ==> s.sem2 > 0) &&
    (s.service == Registered ==> Ready(s.main)) &&
    (s.main == Starting && s.service != NotCalled ==> s.sem1 > 0) &&
    (s.service == NotCalled ==> s.sem1 == 0) &&
    (s.main != Starting && s.main != Failed ==> s.service == Told || s.service == Registered) &&
    (s.service != Registered ==> forall t :: 0 <= t < |s.handlers| ==> s.handlers[t] == Away)
  }

  /** A handler that has posted its event or sleeps still has the event in the queue or in the
      hands of the main thread, which has not yet woken the sleepers. */
  predicate NotForgotten(s: Sys) {
    (forall t :: 0 <= t < |s.handlers| && (s.handlers[t] == Posted || s.handlers[t] == Asleep) ==>
      t in s.queue || Serving(s.main, t) || s.main == Gone) &&
    (forall i :: 0 <= i < |s.queue| ==> s.queue[i] < |s.handlers|)
  }

  predicate Inv(s: Sys) { MutexRight(s) && StartRight(s) && NotForgotten(s) }

  lemma HandlerKeepsInv(codes: seq<Code>, s: Sys, step: Step)
    requires Inv(s) && HandlerEnabled(codes, s, step)
    ensures Inv(HandlerStep(codes, s, step))
  {
  }

  lemma DequeueKeepsInv(codes: seq<Code>, s: Sys)
    requires Inv(s) && Enabled(codes, s, Dequeue)
    ensures Inv(Take(codes, s, Dequeue))
  {
    var r := Take(codes, s, Dequeue);
    forall t | 0 <= t < |s.handlers| && (s.handlers[t] == Posted || s.handlers[t] == Asleep)
      ensures t in r.queue || Serving(r.main, t)
    {
      assert s.queue == [s.queue[0]] + r.queue;
    }
  }

  lemma WakeKeepsInv(codes: seq<Code>, s: Sys)
    requires Inv(s) && Enabled(codes, s, WakeAll)
    ensures Inv(Take(codes, s, WakeAll))
  {
  }

  /** A step of the main or the starting thread that leaves handlers and events alone. */
  lemma OtherKeepsInv(codes: seq<Code>, s: Sys, step: Step)
    requires Inv(s) && Enabled(codes, s, step) && !HandlerEnabled(codes, s, step)
    requires !step.Dequeue? && !step.WakeAll?
    ensures Inv(Take(codes, s, step))
  {
  }

  lemma StepKeepsInv(codes: seq<Code>, s: Sys, step: Step)
    requires Inv(s) && Enabled(codes, s, step)
    ensures Inv(Take(codes, s, step))
  {
    if HandlerEnabled(codes, s, step) {
      HandlerKeepsInv(codes, s, step);
    } else if step.Dequeue? {
      DequeueKeepsInv(codes, s);
    } else if step.WakeAll? {
      WakeKeepsInv(codes, s);
    } else {
      OtherKeepsInv(codes, s, step);
    }
  }

  lemma {:induction false} RunKeepsInv(codes: seq<Code>, s: Sys, steps: seq<Step>)
    requires Inv(s) && Possible(codes, s, steps)
    ensures Inv(Run(codes, s, steps))
    decreases |steps|
  {
    if steps != [] {
      StepKeepsInv(codes, s, steps[0]);
      RunKeepsInv(codes, Take(codes, s, steps[0]), steps[1..]);
    }
  }

  lemma {:induction false} RunKeepsCount(codes: seq<Code>, s: Sys, steps: seq<Step>)
    requires Possible(codes, s, steps)
    ensures |Run(codes, s, steps).handlers| == |s.handlers|
    decreases |steps|
  {
    if steps != [] {
      RunKeepsCount(codes, Take(codes, s, steps[0]), steps[1..]);
    }
  }

  // -------------------------------------------------------------------------- one at a time

  predicate Active(p: Phase) { p != Away && p != Returned }

  predicate Serial(s: Sys, step: Step) {
    step.Arrive? ==> forall u :: 0 <= u < |s.handlers| && u != step.t ==> !Active(s.handlers[u])
  }

  predicate SerialRun(codes: seq<Code>, s: Sys, steps: seq<Step>)
    requires Possible(codes, s, steps)
    decreases |steps|
  {
    steps == [] || (Serial(s, steps[0]) && SerialRun(codes, Take(codes, s, steps[0]), steps[1..]))
  }

  ghost predicate OneAtATime(codes: seq<Code>, s: Sys)
  {
    (forall t, u :: 0 <= t < |s.handlers| && 0 <= u < |s.handlers| ==>
      Active(s.handlers[t]) && Active(s.handlers[u]) ==> t == u) &&
    |s.queue| <= 1 &&
    (forall t: nat :: t in s.queue ==> t < |s.handlers| && (s.handlers[t] == Posted || s.handlers[t] == Asleep)) &&
    (forall t: nat :: Serving(s.main, t) ==>
      s.queue == [] && t < |s.handlers| && (s.handlers[t] == Posted || s.handlers[t] == Asleep) && t in s.called) &&
    (forall t :: 0 <= t < |s.handlers| && Awake(s.handlers[t]) && Waits(CodeOf(codes, t)) ==> t in s.called)
  }

  /** A handler that moves on without touching anything the others see. */
  lemma MoveKeepsOne(codes: seq<Code>, s: Sys, t: nat, p: Phase, r: Sys)
    requires OneAtATime(codes, s) && t < |s.handlers|
    requires r.handlers == s.handlers[t := p] && r.queue == s.queue && r.main == s.main && r.called == s.called
    requires Active(s.handlers[t]) && p != Away
    requires s.handlers[t] == Posted || s.handlers[t] == Asleep ==> p == Asleep
    requires Awake(p) && Waits(CodeOf(codes, t)) ==> Awake(s.handlers[t])
    ensures OneAtATime(codes, r)
  {
  }

  lemma HandlerKeepsOne(codes: seq<Code>, s: Sys, step: Step)
    requires Inv(s) && OneAtATime(codes, s)
    requires HandlerEnabled(codes, s, step) && Serial(s, step)
    ensures OneAtATime(codes, HandlerStep(codes, s, step))
  {
    if step.Arrive? {
      ArriveKeepsOne(codes, s, step.t);
    } else if step.Post? {
      PostKeepsOne(codes, s, step.t);
    } else {
      var r := HandlerStep(codes, s, step);
      MoveKeepsOne(codes, s, step.t, r.handlers[step.t], r);
    }
  }

  /** A handler that has not posted yet: nothing is queued, nothing is served. */
  lemma IdleQueue(codes: seq<Code>, s: Sys, t: nat)
    requires OneAtATime(codes, s) && t < |s.handlers|
    requires forall u :: 0 <= u < |s.handlers| && u != t ==> !Active(s.handlers[u])
    requires s.handlers[t] != Posted && s.handlers[t] != Asleep
    ensures s.queue == [] && !s.main.Called? && !s.main.Holding?
  {
    var u := if s.queue == [] then t else s.queue[0];
    assert s.queue != [] ==> u in s.queue;
    if s.main.Called? || s.main.Holding? {
      assert Serving(s.main, s.main.t);
    }
  }

  lemma ArriveKeepsOne(codes: seq<Code>, s: Sys, t: nat)
    requires OneAtATime(codes, s) && HandlerEnabled(codes, s, Arrive(t)) && Serial(s, Arrive(t))
    ensures OneAtATime(codes, HandlerStep(codes, s, Arrive(t)))
  {
    IdleQueue(codes, s, t);
  }

  lemma PostKeepsOne(codes: seq<Code>, s: Sys, t: nat)
    requires OneAtATime(codes, s) && HandlerEnabled(codes, s, Post(t))
    ensures OneAtATime(codes, HandlerStep(codes, s, Post(t)))
  {
    IdleQueue(codes, s, t);
  }

  lemma DequeueKeepsOne(codes: seq<Code>, s: Sys)
    requires OneAtATime(codes, s) && Enabled(codes, s, Dequeue)
    ensures OneAtATime(codes, Take(codes, s, Dequeue))
  {
    assert s.queue[0] in s.queue && s.queue[1..] == [];
  }

  lemma WakeKeepsOne(codes: seq<Code>, s: Sys)
    requires Inv(s) && OneAtATime(codes, s) && Enabled(codes, s, WakeAll)
    ensures OneAtATime(codes, Take(codes, s, WakeAll))
  {
    assert Serving(s.main, s.main.t);
  }

  /** A step that leaves handlers and events alone, and serves nobody it did not serve before. */
  lemma QuietKeepsOne(codes: seq<Code>, s: Sys, r: Sys)
    requires OneAtATime(codes, s)
    requires r.handlers == s.handlers && r.queue == s.queue && r.called == s.called
    requires forall t: nat :: Serving(r.main, t) ==> Serving(s.main, t)
    ensures OneAtATime(codes, r)
  {
  }

  lemma MainKeepsOne(codes: seq<Code>, s: Sys, step: Step)
    requires Inv(s) && OneAtATime(codes, s) && Enabled(codes, s, step) && !HandlerEnabled(codes, s, step)
    ensures OneAtATime(codes, Take(codes, s, step))
  {
    if step.Dequeue? {
      DequeueKeepsOne(codes, s);
    } else if step.WakeAll? {
      WakeKeepsOne(codes, s);
    } else {
      QuietKeepsOne(codes, s, Take(codes, s, step));
    }
  }

  lemma StepKeepsOne(codes: seq<Code>, s: Sys, step: Step)
    requires Inv(s) && OneAtATime(codes, s) && Enabled(codes, s, step) && Serial(s, step)
    ensures OneAtATime(codes, Take(codes, s, step))
  {
    if HandlerEnabled(codes, s, step) {
      HandlerKeepsOne(codes, s, step);
    } else {
      MainKeepsOne(codes, s, step);
    }
  }

  lemma {:induction false} RunKeepsOne(codes: seq<Code>, s: Sys, steps: seq<Step>)
    requires Inv(s) && OneAtATime(codes, s)
    requires Possible(codes, s, steps) && SerialRun(codes, s, steps)
    ensures OneAtATime(codes, Run(codes, s, steps))
    decreases |steps|
  {
    if steps != [] {
      StepKeepsInv(codes, s, steps[0]);
      StepKeepsOne(codes, s, steps[0]);
      RunKeepsOne(codes, Take(codes, s, steps[0]), steps[1..]);
    }
  }

  /** With one control at a time a handler goes on, and so sets RUNNING or PAUSED, only after
      the callback of its own event has run in the main thread. */
  lemma CallbackBeforeStatus(codes: seq<Code>, steps: seq<Step>, t: nat)
    requires Possible(codes, Init(codes), steps) && SerialRun(codes, Init(codes), steps)
    requires Enabled(codes, Run(codes, Init(codes), steps), SetFinal(t))
    ensures Waits(CodeOf(codes, t)) ==> t in Run(codes, Init(codes), steps).called
  {
    RunKeepsInv(codes, Init(codes), steps);
    RunKeepsOne(codes, Init(codes), steps);
  }

  lemma {:induction false} FailedStays(codes: seq<Code>, s: Sys, steps: seq<Step>)
    requires Possible(codes, s, steps) && s.main == Failed
    ensures Run(codes, s, steps).main == Failed
    decreases |steps|
  {
    if steps != [] {
      FailedStays(codes, Take(codes, s, steps[0]), steps[1..]);
    }
  }

  /** When the service is not announced in time, or no application is created, start() has failed for
      good: nothing is installed and no control is ever handled. */
  lemma StartFailsForGood(codes: seq<Code>, s: Sys, step: Step, steps: seq<Step>)
    requires Inv(s) && step in {TimeOut, CreateFails} && Possible(codes, s, [step] + steps)
    ensures var r := Run(codes, s, [step] + steps);
            r.main == Failed && !r.installed && forall t :: 0 <= t < |r.handlers| ==> r.handlers[t] == Away
  {
    assert ([step] + steps)[0] == step && ([step] + steps)[1..] == steps;
    FailedStays(codes, Take(codes, s, step), steps);
    RunKeepsInv(codes, s, [step] + steps);
  }
}
