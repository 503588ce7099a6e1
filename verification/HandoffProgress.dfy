/**
 Every run of the hand-off ends, and it ends with all handlers back but those that the main
 thread has left asleep: a measure over all threads and the queue, and a step that is always
 possible.
 */
module HandoffProgress {
  import opened ServiceHandoff
  import opened HandoffSafety
  import opened HandoffWaking

  function Weight(p: Phase): nat {
    match p
    case Away => 14 case Arrived => 13 case Inside => 12 case Pending => 11
    case Posted => 6 case Asleep => 5 case Woken => 4 case Back => 3 case Done => 2
    case Out => 1 case Returned => 0
  }

  function Weights(ps: seq<Phase>): nat {
    if ps == [] then 0 else Weight(ps[0]) + Weights(ps[1..])
  }

  function MainWeight(m: MainPhase): nat {
    match m
    case Starting => 11 case Creating => 10 case Installing => 9 case Releasing => 8
    case Called(_) => 6 case Holding(_) => 5 case Waked => 4 case Loop => 3
    case Exiting => 2 case Leaving => 1 case Gone => 0 case Failed => 0
  }

  function ServiceWeight(v: ServicePhase): nat {
    match v
    case NotCalled => 2 case Told => 1 case Registered => 0 case Refused => 0
  }

  function Measure(s: Sys): nat {
    Weights(s.handlers) + 4 * |s.queue| + MainWeight(s.main) + ServiceWeight(s.service)
  }

  lemma {:induction false} WeightsUpdate(ps: seq<Phase>, t: nat, p: Phase)
    requires t < |ps|
    ensures Weights(ps[t := p]) == Weights(ps) - Weight(ps[t]) + Weight(p)
    decreases |ps|
  {
    if t == 0 {
      assert ps[t := p][1..] == ps[1..];
    } else {
      assert ps[t := p][1..] == ps[1..][t - 1 := p];
      WeightsUpdate(ps[1..], t - 1, p);
    }
  }

  lemma {:induction false} WeightsWake(ps: seq<Phase>)
    ensures Weights(Wake(ps)) <= Weights(ps)
    decreases |ps|
  {
    if ps != [] {
      assert Wake(ps)[1..] == Wake(ps[1..]);
      WeightsWake(ps[1..]);
    }
  }

  lemma HandlerDecreases(codes: seq<Code>, s: Sys, step: Step)
    requires HandlerEnabled(codes, s, step)
    ensures Measure(HandlerStep(codes, s, step)) < Measure(s)
  {
    var r := HandlerStep(codes, s, step);
    WeightsUpdate(s.handlers, step.t, r.handlers[step.t]);
    assert r.handlers == s.handlers[step.t := r.handlers[step.t]];
  }

  /** Every step of every thread brings the measure down, so no run is longer than it. */
  lemma StepDecreases(codes: seq<Code>, s: Sys, step: Step)
    requires Enabled(codes, s, step)
    ensures Measure(Take(codes, s, step)) < Measure(s)
  {
    if HandlerEnabled(codes, s, step) {
      HandlerDecreases(codes, s, step);
    } else if step.WakeAll? {
      WeightsWake(s.handlers);
    }
  }

  lemma {:induction false} RunsEnd(codes: seq<Code>, s: Sys, steps: seq<Step>)
    requires Possible(codes, s, steps)
    ensures |steps| + Measure(Run(codes, s, steps)) <= Measure(s)
    decreases |steps|
  {
    if steps != [] {
      StepDecreases(codes, s, steps[0]);
      RunsEnd(codes, Take(codes, s, steps[0]), steps[1..]);
    }
  }

  predicate Settled(s: Sys) { s.queue == [] && forall t :: 0 <= t < |s.handlers| ==> s.handlers[t] == Returned }

  /** The step of a handler that does not have to wait for another thread. */
  function NextOf(codes: seq<Code>, s: Sys, t: nat): Step
    requires t < |s.handlers|
  {
    match s.handlers[t]
    case Away => Arrive(t)
    case Arrived => Lock(t)
    case Inside => SetPending(t)
    case Pending => if Waits(CodeOf(codes, t)) then Post(t) else Skip(t)
    case Posted => Wait(t)
    case Woken => Relock(t)
    case Back => SetFinal(t)
    case Done => Unlock(t)
    case _ => Report(t)
  }

  lemma SomeStep(codes: seq<Code>, s: Sys) returns (step: Step)
    requires Inv(s) && s.main != Gone && s.main != Failed && !Settled(s)
    ensures Enabled(codes, s, step)
  {
    match s.main
    case Starting => step := if s.sem1 > 0 then Acquire1 else TimeOut;
    case Creating => step := CreateApp;
    case Installing => step := Install;
    case Releasing => step := Release2;
    case Holding(_) => step := WakeAll;
    case Waked => step := MainUnlock;
    case Exiting => step := SetStopped;
    case Leaving => step := Delete;
    case Called(_) => step := if s.mutex == Free then MainLock else NextOf(codes, s, s.mutex.t);
    case Loop =>
      if s.queue != [] {
        step := Dequeue;
      } else if s.mutex.By? {
        step := NextOf(codes, s, s.mutex.t);
      } else if s.service == Told {
        step := Acquire2;
      } else {
        var t :| 0 <= t < |s.handlers| && s.handlers[t] != Returned;
        step := NextOf(codes, s, t);
      }
  }

  /** After the main thread has gone only sleepers cannot go on. */
  lemma GoneStep(codes: seq<Code>, s: Sys, t: nat) returns (step: Step)
    requires Inv(s) && s.main == Gone && t < |s.handlers|
    requires s.handlers[t] != Returned && s.handlers[t] != Asleep
    ensures Enabled(codes, s, step)
  {
    if s.service == Told {
      step := Acquire2;
    } else if s.mutex.By? {
      step := NextOf(codes, s, s.mutex.t);
    } else {
      step := NextOf(codes, s, t);
    }
  }

  /** Where a run ends that cannot go on. */
  ghost predicate Ended(codes: seq<Code>, s: Sys) {
    if s.main == Failed then forall t :: 0 <= t < |s.handlers| ==> s.handlers[t] == Away
    else
      && (s.main != Gone ==> s.queue == [])
      && (forall t :: 0 <= t < |s.handlers| ==>
            s.handlers[t] == Returned ||
            (s.handlers[t] == Asleep && s.main == Gone && t !in s.called))
      && (s.main == Gone ==> exists u :: u in s.called && Ends(CodeOf(codes, u)))
  }

  lemma StuckEnds(codes: seq<Code>, s: Sys)
    requires Inv(s) && Waking(codes, s) && forall step :: !Enabled(codes, s, step)
    ensures Ended(codes, s)
  {
    if s.main == Gone {
      forall t | 0 <= t < |s.handlers|
        ensures s.handlers[t] == Returned || (s.handlers[t] == Asleep && t !in s.called)
      {
        if s.handlers[t] != Returned && s.handlers[t] != Asleep {
          var step := GoneStep(codes, s, t);
        }
      }
    } else if s.main != Failed && !Settled(s) {
      var step := SomeStep(codes, s);
    }
  }

  /** Every run is finite, and one that cannot go on has all handlers back, that of STOP or
      SHUTDOWN and all others whose callbacks have run included; only when STOP or SHUTDOWN was
      served can a handler be left behind: it is asleep, was never called, and went to sleep after
      the last wake-up. If start() failed no handler was ever entered. */
  lemma AllHandlersReturn(codes: seq<Code>, steps: seq<Step>)
    requires Possible(codes, Init(codes), steps)
    ensures |steps| <= Measure(Init(codes))
    ensures var s := Run(codes, Init(codes), steps);
            |s.handlers| == |codes| && ((forall step :: !Enabled(codes, s, step)) ==> Ended(codes, s)) &&
            forall t: nat :: At(s, t, Asleep) <==> SleptSince(steps, t, false)
  {
    RunKeepsCount(codes, Init(codes), steps);
    RunsEnd(codes, Init(codes), steps);
    RunKeepsInv(codes, Init(codes), steps);
    RunKeepsWaking(codes, Init(codes), steps);
    var s := Run(codes, Init(codes), steps);
    forall t: nat ensures At(s, t, Asleep) <==> SleptSince(steps, t, false) {
      AsleepSinceWakeUp(codes, Init(codes), steps, t);
    }
    if forall step :: !Enabled(codes, s, step) {
      StuckEnds(codes, s);
    }
  }
}
