/**
 For which controls the hand-off does not do what one expects: when a status can be set before
 its callback has run, and when a handler can be left asleep for good.
 */
module HandoffRaces {
  import opened ServiceHandoff
  import opened HandoffSafety
  import opened HandoffWaking
  import opened HandoffStatus
  import opened HandoffProgress

  lemma {:induction false} Then(codes: seq<Code>, s: Sys, steps: seq<Step>, step: Step)
    requires Possible(codes, s, steps)
    requires Enabled(codes, Run(codes, s, steps), step)
    ensures Possible(codes, s, steps + [step])
    ensures Run(codes, s, steps + [step]) == Take(codes, Run(codes, s, steps), step)
    decreases |steps|
  {
    if steps == [] {
      assert steps + [step] == [step] && [step][1..] == [];
      assert Possible(codes, Take(codes, s, step), []);
    } else {
      assert (steps + [step])[0] == steps[0] && (steps + [step])[1..] == steps[1..] + [step];
      Then(codes, Take(codes, s, steps[0]), steps[1..], step);
    }
  }

  ghost predicate Reachable(codes: seq<Code>, s: Sys) {
    exists steps :: Possible(codes, Init(codes), steps) && Run(codes, Init(codes), steps) == s
  }

  lemma Next(codes: seq<Code>, s: Sys, step: Step, r: Sys)
    requires Reachable(codes, s) && Enabled(codes, s, step) && r == Take(codes, s, step)
    ensures Reachable(codes, r)
  {
    var steps :| Possible(codes, Init(codes), steps) && Run(codes, Init(codes), steps) == s;
    Then(codes, Init(codes), steps, step);
  }

  /** All handlers at rest, the service registered, the main thread in its loop. */
  function Up(codes: seq<Code>): Sys {
    Sys(Free, [], Unset, seq(|codes|, i => Away), Loop, Registered, 0, 0, true, false, [])
  }

  lemma UpIsReachable(codes: seq<Code>)
    ensures Reachable(codes, Up(codes))
  {
    var s0 := Init(codes);
    assert Possible(codes, s0, []) && Run(codes, s0, []) == s0;
    var s1 := s0.(service := Told, sem1 := 1);
    var s2 := s1.(main := Creating, sem1 := 0);
    var s3 := s2.(main := Installing);
    var s4 := s3.(main := Releasing, installed := true);
    var s5 := s4.(main := Loop, sem2 := 1);
    Next(codes, s0, Release1, s1);
    Next(codes, s1, Acquire1, s2);
    Next(codes, s2, CreateApp, s3);
    Next(codes, s3, Install, s4);
    Next(codes, s4, Release2, s5);
    Next(codes, s5, Acquire2, Up(codes));
  }

  lemma Enters(codes: seq<Code>, s: Sys, t: nat, r: Sys)
    requires Reachable(codes, s)
    requires s.service == Registered && s.mutex == Free && At(s, t, Away)
    requires r == To(s, t, Pending).(mutex := By(t), status := PendingStatus(CodeOf(codes, t), s.status))
    ensures Reachable(codes, r)
  {
    var s1 := To(s, t, Arrived);
    var s2 := To(s1, t, Inside).(mutex := By(t));
    Next(codes, s, Arrive(t), s1);
    Next(codes, s1, Lock(t), s2);
    assert r == To(s2, t, Pending).(status := PendingStatus(CodeOf(codes, t), s.status));
    Next(codes, s2, SetPending(t), r);
  }

  /** From its arrival to its sleep. */
  lemma FallsAsleep(codes: seq<Code>, s: Sys, t: nat, r: Sys)
    requires Reachable(codes, s)
    requires s.service == Registered && s.mutex == Free && At(s, t, Away) && Waits(CodeOf(codes, t)) && s.installed
    requires r == s.(handlers := s.handlers[t := Asleep], queue := s.queue + [t],
                     status := PendingStatus(CodeOf(codes, t), s.status))
    ensures Reachable(codes, r)
  {
    var s3 := To(s, t, Pending).(mutex := By(t), status := PendingStatus(CodeOf(codes, t), s.status));
    Enters(codes, s, t, s3);
    var s4 := To(s3, t, Posted).(queue := s.queue + [t]);
    Next(codes, s3, Post(t), s4);
    assert r == To(s4, t, Asleep).(mutex := Free);
    Next(codes, s4, Wait(t), r);
  }

  /** From the end of a callback back to the loop. */
  lemma WakesUp(codes: seq<Code>, s: Sys, r: Sys)
    requires Reachable(codes, s) && s.main.Called? && s.mutex == Free
    requires r == s.(handlers := Wake(s.handlers), main := Loop)
    ensures Reachable(codes, r)
  {
    var s1 := s.(main := Holding(s.main.t), mutex := ByMain);
    var s2 := s1.(main := Waked, handlers := Wake(s.handlers));
    Next(codes, s, MainLock, s1);
    Next(codes, s1, WakeAll, s2);
    Next(codes, s2, MainUnlock, r);
  }

  lemma ReachableInv(codes: seq<Code>, s: Sys)
    requires Reachable(codes, s)
    ensures Inv(s) && Waking(codes, s) && |s.handlers| == |codes|
  {
    var steps :| Possible(codes, Init(codes), steps) && Run(codes, Init(codes), steps) == s;
    RunKeepsInv(codes, Init(codes), steps);
    RunKeepsWaking(codes, Init(codes), steps);
    RunKeepsCount(codes, Init(codes), steps);
  }

  /** The first handler is asleep and its callback has run. */
  function FirstCalled(codes: seq<Code>, t: nat): Sys
    requires t < |codes|
  {
    Up(codes).(handlers := Up(codes).handlers[t := Asleep], called := [t], main := Called(t),
               status := PendingStatus(CodeOf(codes, t), Unset), quit := Ends(CodeOf(codes, t)))
  }

  lemma FirstIsCalled(codes: seq<Code>, t: nat)
    requires t < |codes| && Waits(CodeOf(codes, t))
    ensures Reachable(codes, FirstCalled(codes, t))
  {
    UpIsReachable(codes);
    var s := FirstCalled(codes, t).(queue := [t], called := [], main := Loop, quit := false);
    FallsAsleep(codes, Up(codes), t, s);
    Next(codes, s, Dequeue, FirstCalled(codes, t));
  }

  /** Another handler has gone to sleep meanwhile and is woken along with the first. */
  function BothAwake(codes: seq<Code>, t: nat, u: nat): Sys
    requires t < |codes| && u < |codes|
  {
    var s := FirstCalled(codes, t);
    s.(handlers := Wake(s.handlers[u := Asleep]), queue := [u], main := Loop,
       status := PendingStatus(CodeOf(codes, u), s.status))
  }

  lemma BothWakeUp(codes: seq<Code>, t: nat, u: nat)
    requires t < |codes| && u < |codes| && t != u
    requires Waits(CodeOf(codes, t)) && Waits(CodeOf(codes, u))
    ensures Reachable(codes, BothAwake(codes, t, u)) && At(BothAwake(codes, t, u), u, Woken)
  {
    var s := FirstCalled(codes, t);
    FirstIsCalled(codes, t);
    var r := s.(handlers := s.handlers[u := Asleep], queue := [u],
                status := PendingStatus(CodeOf(codes, u), s.status));
    FallsAsleep(codes, s, u, r);
    WakesUp(codes, r, BothAwake(codes, t, u));
  }

  /** The final status is set and the mutex still held, but the callback has not run. */
  ghost predicate Premature(codes: seq<Code>, s: Sys, u: nat) {
    Reachable(codes, s) && At(s, u, Done) && u !in s.called &&
    s.status == FinalStatus(CodeOf(codes, u), s.status)
  }

  lemma WokenTooEarly(codes: seq<Code>, t: nat, u: nat) returns (s: Sys)
    requires t < |codes| && u < |codes| && t != u
    requires Waits(CodeOf(codes, t)) && Mode(CodeOf(codes, u))
    ensures Premature(codes, s, u)
  {
    BothWakeUp(codes, t, u);
    var w := BothAwake(codes, t, u);
    s := Finalised(codes, w, u);
    Finalises(codes, w, u);
  }

  /** A woken handler gets the mutex and sets its final status. */
  function Finalised(codes: seq<Code>, s: Sys, u: nat): Sys
    requires u < |s.handlers|
  {
    To(s, u, Done).(mutex := By(u), status := FinalStatus(CodeOf(codes, u), s.status))
  }

  lemma Finalises(codes: seq<Code>, s: Sys, u: nat)
    requires Reachable(codes, s) && At(s, u, Woken) && s.mutex == Free
    ensures Reachable(codes, Finalised(codes, s, u))
  {
    var r := To(s, u, Back).(mutex := By(u));
    Next(codes, s, Relock(u), r);
    assert r.handlers[u := Done] == s.handlers[u := Done];
    Next(codes, r, SetFinal(u), Finalised(codes, s, u));
  }

  /** When RUNNING or PAUSED can be set before the callback that it reports has run: exactly when
      some other control waits for its callback too. Its wake-up wakes both handlers. */
  lemma PausedBeforeCallback(codes: seq<Code>, u: nat)
    requires Mode(CodeOf(codes, u))
    ensures (exists s :: Premature(codes, s, u)) <==>
            (exists t :: 0 <= t < |codes| && t != u && Waits(CodeOf(codes, t)))
  {
    if s :| Premature(codes, s, u) {
      ReachableInv(codes, s);
      assert s.called[0] in s.called && s.called[0] != u;
      assert Waits(CodeOf(codes, s.called[0]));
    }
    if t :| 0 <= t < |codes| && t != u && Waits(CodeOf(codes, t)) {
      var s := WokenTooEarly(codes, t, u);
    }
  }

  // ------------------------------------------------------------------------- left asleep

  lemma GoneStays(codes: seq<Code>, s: Sys, step: Step)
    requires s.main == Gone && Enabled(codes, s, step)
    ensures step != WakeAll && Take(codes, s, step).main == Gone
  {
  }

  /** Nobody wakes a sleeper after the main thread has gone. */
  lemma {:induction false} GoneWakesNobody(codes: seq<Code>, s: Sys, steps: seq<Step>, t: nat)
    requires Possible(codes, s, steps) && s.main == Gone && At(s, t, Asleep)
    ensures At(Run(codes, s, steps), t, Asleep) && Run(codes, s, steps).main == Gone
    decreases |steps|
  {
    if steps != [] {
      GoneStays(codes, s, steps[0]);
      StepSleeps(codes, s, steps[0], t);
      GoneWakesNobody(codes, Take(codes, s, steps[0]), steps[1..], t);
    }
  }

  /** A reachable state from which every run leaves the handler asleep. */
  ghost predicate LeftBehind(codes: seq<Code>, s: Sys, t: nat) {
    Reachable(codes, s) && forall steps :: Possible(codes, s, steps) ==> At(Run(codes, s, steps), t, Asleep)
  }

  lemma {:induction false} Completes(codes: seq<Code>, s: Sys) returns (steps: seq<Step>)
    ensures Possible(codes, s, steps) && forall step :: !Enabled(codes, Run(codes, s, steps), step)
    decreases Measure(s)
  {
    if step :| Enabled(codes, s, step) {
      StepDecreases(codes, s, step);
      var rest := Completes(codes, Take(codes, s, step));
      steps := [step] + rest;
      assert steps[1..] == rest;
    } else {
      steps := [];
    }
  }

  lemma RunKeeps(codes: seq<Code>, s: Sys, steps: seq<Step>)
    requires Inv(s) && Waking(codes, s) && |s.handlers| == |codes| && Possible(codes, s, steps)
    ensures var r := Run(codes, s, steps); Inv(r) && Waking(codes, r) && |r.handlers| == |codes|
  {
    RunKeepsInv(codes, s, steps);
    RunKeepsWaking(codes, s, steps);
    RunKeepsCount(codes, s, steps);
  }

  /** Who is left behind was never called, and somebody else has ended the service. */
  lemma LeftBehindShutdown(codes: seq<Code>, s: Sys, t: nat)
    requires LeftBehind(codes, s, t)
    ensures t < |codes| && Waits(CodeOf(codes, t))
    ensures exists u :: 0 <= u < |codes| && u != t && Ends(CodeOf(codes, u))
  {
    ReachableInv(codes, s);
    var steps := Completes(codes, s);
    var r := Run(codes, s, steps);
    RunKeeps(codes, s, steps);
    StuckEnds(codes, r);
    var u :| u in r.called && Ends(CodeOf(codes, u));
    assert u < |codes| && u != t;
  }

  /** The main thread leaves its loop and deletes the object. */
  lemma LeavesAsleep(codes: seq<Code>, s: Sys, t: nat, r: Sys)
    requires Reachable(codes, s) && s.main == Loop && s.quit && At(s, t, Asleep)
    requires r == s.(main := Gone, status := Stopped, installed := false)
    ensures LeftBehind(codes, r, t)
  {
    var s1 := s.(main := Exiting);
    var s2 := s1.(main := Leaving, status := Stopped);
    Next(codes, s, ExitLoop, s1);
    Next(codes, s1, SetStopped, s2);
    Next(codes, s2, Delete, r);
    forall steps | Possible(codes, r, steps) ensures At(Run(codes, r, steps), t, Asleep) {
      GoneWakesNobody(codes, r, steps, t);
    }
  }

  lemma LostAfterEnd(codes: seq<Code>, t: nat, u: nat) returns (r: Sys)
    requires t < |codes| && u < |codes| && u != t && Waits(CodeOf(codes, t)) && Ends(CodeOf(codes, u))
    ensures LeftBehind(codes, r, t)
  {
    FirstIsCalled(codes, u);
    var s := FirstCalled(codes, u);
    var s1 := s.(main := Loop, handlers := Wake(s.handlers));
    WakesUp(codes, s, s1);
    var s2 := s1.(handlers := s1.handlers[t := Asleep], queue := [t],
                  status := PendingStatus(CodeOf(codes, t), s1.status));
    FallsAsleep(codes, s1, t, s2);
    r := s2.(main := Gone, status := Stopped, installed := false);
    LeavesAsleep(codes, s2, t, r);
  }

  /** A control can be left without an answer for ever exactly when it waits for its callback and
      some other control is STOP or SHUTDOWN: it comes while that one is being served. */
  lemma ControlAfterStopIsLost(codes: seq<Code>, t: nat)
    ensures (exists s :: LeftBehind(codes, s, t)) <==>
            t < |codes| && Waits(CodeOf(codes, t)) &&
            exists u :: 0 <= u < |codes| && u != t && Ends(CodeOf(codes, u))
  {
    if s :| LeftBehind(codes, s, t) {
      LeftBehindShutdown(codes, s, t);
    }
    if t < |codes| && Waits(CodeOf(codes, t)) {
      if u :| 0 <= u < |codes| && u != t && Ends(CodeOf(codes, u)) {
        var s := LostAfterEnd(codes, t, u);
      }
    }
  }
}
