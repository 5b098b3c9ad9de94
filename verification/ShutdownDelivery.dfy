/**
 What the shutdown signal's parts do, beyond what they keep: a signal handled
 while the descriptor is published is delivered, the callback is tried again until
 it accepts, and a worker that is told to stop does.
 */
module ShutdownDelivery {
  import opened ShutdownSignal

  // ---------------------------------------------------------------------
  // How far the owner has got
  // ---------------------------------------------------------------------

  /** From publishing the descriptor to just before withdrawing it, including a constructor that fails. */
  predicate Published(owner: OwnerPc) {
    owner.InstallInt? || owner.InstallTerm? || owner.UndoInt? || owner.Live? || owner.StoreStop? || owner.Join?
    || owner.StoreInvalid?
  }

  /** The handlers are installed and the stop flag is set when the owner's progress says so. */
  ghost predicate OwnerFits(s: State) {
    && (Published(s.owner) ==> s.shared.fdValid)
    && (s.owner.InstallTerm? || s.owner.UndoInt? ==> s.shared.onInt)
    && (s.owner.Live? || s.owner.StoreStop? || s.owner.Join? || s.owner.StoreInvalid? ==>
          s.shared.onInt && s.shared.onTerm)
    && (s.owner.Join? || s.owner.StoreInvalid? || s.owner.RestoreInt? || s.owner.RestoreTerm? ==> s.shared.stopping)
    && (s.shared.stopping ==> !Constructing(s.owner) && !s.owner.Live? && !s.owner.StoreStop?)
  }

  lemma StepKeepsOwner(s: State, step: Step)
    requires Inv(s) && OwnerFits(s) && Enabled(s, step)
    ensures OwnerFits(Apply(s, step))
  {
  }

  lemma {:induction false} RunKeepsOwner(s: State, steps: seq<Step>)
    requires Inv(s) && OwnerFits(s) && ValidRun(s, steps)
    ensures Inv(After(s, steps)) && OwnerFits(After(s, steps))
    decreases |steps|
  {
    if steps != [] {
      StepKeepsInv(s, steps[0]);
      StepKeepsOwner(s, steps[0]);
      RunKeepsOwner(Apply(s, steps[0]), steps[1..]);
    }
  }

  lemma ReachableFits(s: State)
    requires Reachable(s)
    ensures Inv(s) && OwnerFits(s)
  {
    var capacity: nat, steps: seq<Step> :|
      capacity > 0 && ValidRun(Init(capacity), steps) && s == After(Init(capacity), steps);
    InitInv(capacity);
    RunKeepsOwner(Init(capacity), steps);
  }

  /** A fully constructed object has both handlers installed and its descriptor published, so every signal arrives. */
  lemma LiveReceivesSignals(s: State, h: HandlerId)
    requires Reachable(s) && s.owner == Live && h !in s.handlers
    ensures s.shared.fdValid && Enabled(s, Arrive(h)) && Apply(s, Arrive(h)).handlers[h] == Arrived
    ensures Apply(s, Start).worker.pc != NotStarted && (s.worker.pc != NotStarted ==> Apply(s, Start) == s)
  {
    ReachableFits(s);
  }

  // ---------------------------------------------------------------------
  // A handled signal is delivered
  // ---------------------------------------------------------------------

  /** A write, interruptions aside, leaves a byte in the pipe: its own, or those that fill it. */
  lemma WriteDelivers(s: State, h: HandlerId, result: WriteResult)
    requires Reachable(s) && Enabled(s, HandlerStep(h, result)) && s.handlers[h] == Loaded(true)
    ensures var t := Apply(s, HandlerStep(h, result));
      if result == Interrupted then t == s
      else t.past.signalled && t.handlers[h] == Notified && t.pipe.bytes > 0
           && t.pipe.bytes == (if result == Written then s.pipe.bytes + 1 else s.pipe.capacity)
  {
    ReachableFits(s);
  }

  /** On its way to the write, or the signal is already in the system. */
  ghost predicate OnItsWay(s: State, h: HandlerId) {
    s.past.signalled
    || (h in s.handlers && (s.handlers[h] == Arrived || s.handlers[h] == Counted || s.handlers[h] == Loaded(true)))
  }

  lemma StepDelivers(s: State, step: Step, h: HandlerId)
    requires Inv(s) && OwnerFits(s) && Enabled(s, step) && Published(s.owner) && OnItsWay(s, h)
    ensures OnItsWay(Apply(s, step), h)
  {
  }

  /** The descriptor is published for one stretch of the run only. */
  lemma {:induction false} NeverPublishedAgain(s: State, steps: seq<Step>)
    requires !Published(s.owner) && s.owner != Publish && ValidRun(s, steps)
    ensures !Published(After(s, steps).owner)
    decreases |steps|
  {
    if steps != [] {
      NeverPublishedAgain(Apply(s, steps[0]), steps[1..]);
    }
  }

  lemma {:induction false} RunDelivers(s: State, steps: seq<Step>, h: HandlerId)
    requires Inv(s) && OwnerFits(s) && Published(s.owner) && OnItsWay(s, h)
    requires ValidRun(s, steps) && Published(After(s, steps).owner)
    ensures OnItsWay(After(s, steps), h)
    decreases |steps|
  {
    if steps != [] {
      var t := Apply(s, steps[0]);
      StepKeepsInv(s, steps[0]);
      StepKeepsOwner(s, steps[0]);
      StepDelivers(s, steps[0], h);
      if !Published(t.owner) {
        NeverPublishedAgain(t, steps[1..]);
      }
      RunDelivers(t, steps[1..], h);
    }
  }

  /**
   A handler that has just arrived while the descriptor is published, and has left
   or is leaving before it is withdrawn, has delivered its signal, whatever
   happens in between.
   */
  lemma HandledSignalIsDelivered(s: State, steps: seq<Step>, h: HandlerId)
    requires Reachable(s) && Published(s.owner) && h in s.handlers && s.handlers[h] == Arrived
    requires ValidRun(s, steps)
    requires var t := After(s, steps); Published(t.owner) && (h in t.handlers ==> t.handlers[h] == Notified)
    ensures After(s, steps).past.signalled
  {
    ReachableFits(s);
    RunDelivers(s, steps, h);
  }

  // ---------------------------------------------------------------------
  // The callback is tried until it accepts
  // ---------------------------------------------------------------------

  ghost predicate NoOwnerStep(steps: seq<Step>) { forall i :: 0 <= i < |steps| ==> !steps[i].OwnerStep? }

  lemma StepKeepsRunning(s: State, step: Step)
    requires Inv(s) && (Running(s) || Accepted(s)) && Enabled(s, step) && !step.OwnerStep?
    ensures Running(Apply(s, step)) || Accepted(Apply(s, step))
  {
  }

  /** A worker that has a signal goes on running until the callback has accepted or the owner shuts down. */
  lemma {:induction false} KeepsRunning(s: State, steps: seq<Step>)
    requires Inv(s) && (Running(s) || Accepted(s)) && ValidRun(s, steps) && NoOwnerStep(steps)
    ensures Inv(After(s, steps)) && (Running(After(s, steps)) || Accepted(After(s, steps)))
    decreases |steps|
  {
    if steps != [] {
      StepKeepsInv(s, steps[0]);
      StepKeepsRunning(s, steps[0]);
      KeepsRunning(Apply(s, steps[0]), steps[1..]);
    }
  }

  lemma {:induction false} RunsCompose(s: State, first: seq<Step>, second: seq<Step>)
    requires ValidRun(s, first) && ValidRun(After(s, first), second)
    ensures ValidRun(s, first + second) && After(s, first + second) == After(After(s, first), second)
    decreases |first|
  {
    if first == [] {
      assert first + second == second;
    } else {
      var n, all := Apply(s, first[0]), first + second;
      assert all[0] == first[0] && all[1..] == first[1..] + second;
      RunsCompose(n, first[1..], second);
      assert After(s, all) == After(n, all[1..]);
    }
  }

  lemma ReachableAfter(s: State, steps: seq<Step>)
    requires Reachable(s) && ValidRun(s, steps)
    ensures Reachable(After(s, steps))
  {
    var capacity: nat, past: seq<Step> :|
      capacity > 0 && ValidRun(Init(capacity), past) && s == After(Init(capacity), past);
    RunsCompose(Init(capacity), past, steps);
  }

  /**
   From a signal's arrival to the callback: once its handler is through and the
   started worker takes seven more steps, the callback has returned, and either it
   has accepted or the worker goes on to try again.
   */
  lemma ArrivedSignalReachesCallback(s: State, handling: seq<Step>, h: HandlerId, working: seq<Step>)
    requires Reachable(s) && s.owner == Live && h in s.handlers && s.handlers[h] == Arrived && ValidRun(s, handling)
    requires var t := After(s, handling);
      && t.owner == Live && (h in t.handlers ==> t.handlers[h] == Notified)
      && t.worker.pc != NotStarted && t.worker.pc != Exited
      && ValidRun(t, working) && NoOwnerStep(working) && PromptRun(t, working) && WorkerStepsIn(working) >= 7
    ensures var t := After(s, handling); var u := After(t, working);
      |u.past.results| > |t.past.results| && (Accepted(u) || Running(u))
  {
    var t := After(s, handling);
    HandledSignalIsDelivered(s, handling, h);
    ReachableAfter(s, handling);
    ReachableFits(t);
    SignalReachesCallback(t, working);
    KeepsRunning(t, working);
  }

  /** One read takes up to 64 bytes out of the pipe and is remembered. */
  lemma ReadDrains(s: State, positive: bool)
    requires Reachable(s) && s.worker.pc == Reading
    ensures var t := Apply(s, WorkerStep(positive));
      && t.worker.pending && t.pipe.bytes < s.pipe.bytes
      && (s.pipe.bytes - t.pipe.bytes == READ_SIZE || t.pipe.bytes == 0)
  {
    ReachableFits(s);
  }

  // ---------------------------------------------------------------------
  // The destructor's join returns
  // ---------------------------------------------------------------------

  /** Worker steps left once the worker is told to stop. */
  function StopDistance(pc: WorkerPc): nat {
    match pc
    case NotStarted => 0
    case Exited => 0
    case LoopTest => 1
    case StopTest => 2
    case Calling => 2
    case PendingTest => 3
    case Reading => 4
    case Polling => 5
  }

  lemma StepNearsExit(s: State, step: Step)
    requires OwnerFits(s) && s.shared.stopping && Enabled(s, step)
    ensures var t := Apply(s, step);
      && t.shared.stopping
      && StopDistance(t.worker.pc) + (if step.WorkerStep? then 1 else 0) <= StopDistance(s.worker.pc)
      && (t.worker.pc.NotStarted? <==> s.worker.pc.NotStarted?)
      && |t.past.results| <= |s.past.results| + (if s.worker.pc == Calling && t.worker.pc != Calling then 1 else 0)
      && (s.worker.pc != Calling ==> t.worker.pc != Calling)
  {
  }

  /**
   Once the stop flag is set, five worker steps end the worker, whatever the
   others do, with at most the one call of the callback that was under way; and
   then the destructor's join returns.
   */
  lemma {:induction false} StoppedWorkerExits(s: State, steps: seq<Step>)
    requires Inv(s) && OwnerFits(s) && s.shared.stopping && ValidRun(s, steps)
    ensures var t := After(s, steps);
      && Inv(t) && OwnerFits(t) && t.shared.stopping
      && StopDistance(t.worker.pc) + WorkerStepsIn(steps) <= StopDistance(s.worker.pc) <= 5
      && |t.past.results| <= |s.past.results| + (if s.worker.pc == Calling && t.worker.pc != Calling then 1 else 0)
      && (t.owner == Join && StopDistance(t.worker.pc) == 0 ==> Enabled(t, OwnerStep(true)))
    decreases |steps|
  {
    if steps != [] {
      StepKeepsInv(s, steps[0]);
      StepKeepsOwner(s, steps[0]);
      StepNearsExit(s, steps[0]);
      StoppedWorkerExits(Apply(s, steps[0]), steps[1..]);
    }
  }

  // ---------------------------------------------------------------------
  // The object goes away
  // ---------------------------------------------------------------------

  /** The owner's steps left to the end. */
  function OwnerDistance(owner: OwnerPc): nat {
    match owner
    case Gone => 0
    case CloseWrite => 1
    case CloseRead => 2
    case WaitZero => 3
    case ReleaseStore => 4
    case RestoreTerm => 5
    case RestoreInt => 6
    case StoreInvalid => 7
    case Join => 8
    case StoreStop => 9
    case Live => 10
    case UndoInt => 5
    case InstallTerm => 11
    case InstallInt => 12
    case Publish => 13
  }

  function OwnerStepsIn(steps: seq<Step>): nat {
    if steps == [] then 0 else (if steps[0].OwnerStep? then 1 else 0) + OwnerStepsIn(steps[1..])
  }

  /** Construction and destruction take at most thirteen steps of the owner, the destructor alone ten. */
  lemma {:induction false} OwnerFinishes(s: State, steps: seq<Step>)
    requires ValidRun(s, steps)
    ensures OwnerStepsIn(steps) + OwnerDistance(After(s, steps).owner) <= OwnerDistance(s.owner) <= 13
    decreases |steps|
  {
    if steps != [] {
      OwnerFinishes(Apply(s, steps[0]), steps[1..]);
    }
  }

  /** While another object has its descriptor published a second one gives up, closing its own pipe and no more. */
  lemma SecondObjectGivesUp(s: State, choice: bool)
    requires s.owner == Publish && s.shared.fdValid
    ensures var a := Apply(s, OwnerStep(choice));
      a.owner != Gone
      && var b := Apply(a, OwnerStep(choice));
         b.owner != Gone && Apply(b, OwnerStep(choice)) ==
           s.(owner := Gone, pipe := s.pipe.(readOpen := false, writeOpen := false))
  {
  }
}
