/**
 The hand-off of service controls on Windows as interleaved steps: handler threads that set a
 pending status, post an event and sleep; the main thread that runs the callback of each event
 and wakes the sleepers; the thread that starts the service; the mutex, the condition, the
 event queue and the two semaphores between them.
 */
module ServiceHandoff {

  datatype Code = Startup | Stop | Pause | Continue | Interrogate | Shutdown | Custom | Other

  datatype Status =
    | Unset | StartPending | Running | StopPending | Stopped
    | PausePending | Paused | ContinuePending

  /** Where a thread is in handler(). From `Inside` to `Posted` and in `Back` and `Done` it holds
      the mutex. */
  datatype Phase =
    Away | Arrived | Inside | Pending | Posted | Asleep | Woken | Back | Done | Out | Returned

  /** Where the main thread is: in start(), or with the event of a handler. It holds the mutex
      in `Holding` and `Waked`. */
  datatype MainPhase =
    | Starting | Creating | Installing | Releasing
    | Loop | Called(t: nat) | Holding(t: nat) | Waked
    | Exiting | Leaving | Gone | Failed

  /** The thread in serviceMain; `Refused` if the dispatcher could not be started. */
  datatype ServicePhase = NotCalled | Told | Registered | Refused

  datatype Holder = Free | ByMain | By(t: nat)

  /** `queue` holds, for each posted event, the handler that posted it; `called` those whose
      callbacks have run. `installed` is a controllerHandler that is not null. */
  datatype Sys = Sys(
    mutex: Holder, queue: seq<nat>, status: Status, handlers: seq<Phase>, main: MainPhase,
    service: ServicePhase, sem1: nat, sem2: nat, installed: bool, quit: bool, called: seq<nat>)

  /** The control of a handler. */
  function CodeOf(codes: seq<Code>, t: nat): Code { if t < |codes| then codes[t] else Other }

  predicate Waits(c: Code) { !c.Interrogate? && !c.Other? }

  function PendingStatus(c: Code, before: Status): Status {
    match c
    case Startup => StartPending
    case Stop => StopPending
    case Pause => PausePending
    case Continue => ContinuePending
    case _ => before
  }

  function FinalStatus(c: Code, before: Status): Status {
    match c
    case Startup => Running
    case Pause => Paused
    case Continue => Running
    case _ => before
  }

  // ---------------------------------------------------------------------------------- steps

  datatype Step =
    | Release1 | Refuse | Acquire2
    | Acquire1 | TimeOut | CreateApp | CreateFails | Install | Release2
    | Dequeue | MainLock | WakeAll | MainUnlock | ExitLoop | SetStopped | Delete
    | Arrive(t: nat) | Lock(t: nat) | SetPending(t: nat) | Post(t: nat) | Skip(t: nat)
    | Wait(t: nat) | Relock(t: nat) | SetFinal(t: nat) | Unlock(t: nat) | Report(t: nat)

  predicate At(s: Sys, t: nat, p: Phase) { t < |s.handlers| && s.handlers[t] == p }

  function To(s: Sys, t: nat, p: Phase): Sys requires t < |s.handlers| { s.(handlers := s.handlers[t := p]) }

  /** The wait condition wakes every sleeper; each then has to get the mutex again. */
  function Wake(ps: seq<Phase>): seq<Phase>
  {
    seq(|ps|, i requires 0 <= i < |ps| => if ps[i] == Asleep then Woken else ps[i])
  }

  predicate HandlerEnabled(codes: seq<Code>, s: Sys, step: Step)
  {
    match step
    case Arrive(t) => s.service == Registered && At(s, t, Away)
    case Lock(t) => s.mutex == Free && At(s, t, Arrived)
    case SetPending(t) => At(s, t, Inside)
    case Post(t) => At(s, t, Pending) && Waits(CodeOf(codes, t))
    case Skip(t) => At(s, t, Pending) && !Waits(CodeOf(codes, t))
    case Wait(t) => At(s, t, Posted)
    case Relock(t) => s.mutex == Free && At(s, t, Woken)
    case SetFinal(t) => At(s, t, Back)
    case Unlock(t) => At(s, t, Done)
    case Report(t) => At(s, t, Out)
    case _ => false
  }

  predicate Enabled(codes: seq<Code>, s: Sys, step: Step)
  {
    match step
    case Release1 => s.service == NotCalled
    case Refuse => s.service == NotCalled
    case Acquire2 => s.service == Told && s.sem2 > 0
    case Acquire1 => s.main == Starting && s.sem1 > 0
    case TimeOut => s.main == Starting && s.sem1 == 0
    case CreateApp => s.main == Creating
    case CreateFails => s.main == Creating
    case Install => s.main == Installing
    case Release2 => s.main == Releasing
    case Dequeue => s.main == Loop && s.queue != [] && s.queue[0] < |s.handlers|
    case MainLock => s.main.Called? && s.mutex == Free
    case WakeAll => s.main.Holding?
    case MainUnlock => s.main == Waked
    case ExitLoop => s.main == Loop && s.quit
    case SetStopped => s.main == Exiting
    case Delete => s.main == Leaving
    case _ => HandlerEnabled(codes, s, step)
  }

  function HandlerStep(codes: seq<Code>, s: Sys, step: Step): Sys
    requires HandlerEnabled(codes, s, step)
  {
    match step
    case Arrive(t) => To(s, t, Arrived)
    case Lock(t) => To(s, t, Inside).(mutex := By(t))
    case SetPending(t) => To(s, t, Pending).(status := PendingStatus(CodeOf(codes, t), s.status))
    case Post(t) => To(s, t, Posted).(queue := if s.installed then s.queue + [t] else s.queue)
    case Skip(t) => To(s, t, Done)
    case Wait(t) => To(s, t, Asleep).(mutex := Free)
    case Relock(t) => To(s, t, Back).(mutex := By(t))
    case SetFinal(t) => To(s, t, Done).(status := FinalStatus(CodeOf(codes, t), s.status))
    case Unlock(t) => To(s, t, Out).(mutex := Free)
    case Report(t) => To(s, t, Returned)
  }

  /** The callback of the event runs; stop() is followed by quit(). */
  function RunEvent(codes: seq<Code>, s: Sys): Sys
    requires s.queue != [] && s.queue[0] < |s.handlers|
  {
    var t := s.queue[0];
    s.(queue := s.queue[1..], called := s.called + [t], main := Called(t),
       quit := s.quit || CodeOf(codes, t).Stop? || CodeOf(codes, t).Shutdown?)
  }

  function Take(codes: seq<Code>, s: Sys, step: Step): Sys
    requires Enabled(codes, s, step)
  {
    match step
    case Release1 => s.(service := Told, sem1 := s.sem1 + 1)
    case Refuse => s.(service := Refused, sem1 := s.sem1 + 1)
    case Acquire2 => s.(service := Registered, sem2 := s.sem2 - 1)
    case Acquire1 => s.(main := if s.service == Refused then Failed else Creating, sem1 := s.sem1 - 1)
    case TimeOut => s.(main := Failed)
    case CreateApp => s.(main := Installing)
    case CreateFails => s.(main := Failed)
    case Install => s.(main := Releasing, installed := true)
    case Release2 => s.(main := Loop, sem2 := s.sem2 + 1)
    case Dequeue => RunEvent(codes, s)
    case MainLock => s.(main := Holding(s.main.t), mutex := ByMain)
    case WakeAll => s.(main := Waked, handlers := Wake(s.handlers))
    case MainUnlock => s.(main := Loop, mutex := Free)
    case ExitLoop => s.(main := Exiting)
    case SetStopped => s.(main := Leaving, status := Stopped)
    case Delete => s.(main := Gone, installed := false)
    case _ => HandlerStep(codes, s, step)
  }

  predicate Possible(codes: seq<Code>, s: Sys, steps: seq<Step>)
    decreases |steps|
  {
    steps == [] || (Enabled(codes, s, steps[0]) && Possible(codes, Take(codes, s, steps[0]), steps[1..]))
  }

  function Run(codes: seq<Code>, s: Sys, steps: seq<Step>): Sys
    requires Possible(codes, s, steps)
    decreases |steps|
  {
    if steps == [] then s else Run(codes, Take(codes, s, steps[0]), steps[1..])
  }

  function Init(codes: seq<Code>): Sys {
    Sys(Free, [], Unset, seq(|codes|, i => Away), Starting, NotCalled, 0, 0, false, false, [])
  }
}
