/**
 Requests that outlive the state they were raised for: exactly when one stays
 pending, exactly when it is stale, and what a stale stop-activation request does
 to the next activation.
 */
module StaleRequests {
  import opened Options
  import opened StateMachines
  import opened AppStateMachine
  import opened AppLifecycle
  import Results = LifecycleResults

  // ---------------------------------------------------------------------
  // When a request is pending
  // ---------------------------------------------------------------------

  /** A request for the event arrives in a state that has a row for it. */
  ghost predicate AcceptedAt(s: System, steps: seq<Step>, e: AppEvent, i: int)
    requires ValidRun(s, steps)
  {
    0 <= i < |steps| && steps[i] == Request(e)
    && (StateAt(s, steps, i).m.state, e) in StateAt(s, steps, i).m.table
  }

  /** The main thread makes the event's transition. */
  ghost predicate TakenAt(s: System, steps: seq<Step>, e: AppEvent, i: int)
    requires ValidRun(s, steps)
  {
    0 <= i < |steps| && steps[i].Main? && StateAt(s, steps, i).pc == Go(e)
  }

  /** The event was accepted at step `i` and its transition has not been made since. */
  ghost predicate LeftBy(s: System, steps: seq<Step>, e: AppEvent, i: int)
    requires ValidRun(s, steps)
  {
    AcceptedAt(s, steps, e, i) && forall j :: i < j < |steps| ==> !TakenAt(s, steps, e, j)
  }

  ghost predicate NeverTaken(s: System, steps: seq<Step>, e: AppEvent)
    requires ValidRun(s, steps)
  {
    forall j :: 0 <= j < |steps| ==> !TakenAt(s, steps, e, j)
  }

  /** One step raises a flag only by an accepted request and lowers it only by the transition. */
  lemma StepPending(s: System, step: Step, e: AppEvent)
    requires Enabled(s, step) && IsAsync(e)
    ensures e in Apply(s, step).m.raised <==>
              (e in s.m.raised && !(step.Main? && s.pc == Go(e))) || (step == Request(e) && (s.m.state, e) in s.m.table)
  {
  }

  lemma ShiftRun(s: System, steps: seq<Step>, e: AppEvent, i: nat)
    requires ValidRun(s, steps) && i + 1 < |steps|
    ensures AcceptedAt(s, steps, e, i + 1) <==> AcceptedAt(Apply(s, steps[0]), steps[1..], e, i)
    ensures TakenAt(s, steps, e, i + 1) <==> TakenAt(Apply(s, steps[0]), steps[1..], e, i)
  {
    assert steps[1..][i] == steps[i + 1];
  }

  lemma NeverTakenShifts(s: System, steps: seq<Step>, e: AppEvent)
    requires ValidRun(s, steps) && steps != []
    ensures NeverTaken(s, steps, e) <==> !TakenAt(s, steps, e, 0) && NeverTaken(Apply(s, steps[0]), steps[1..], e)
  {
    var t, rest := Apply(s, steps[0]), steps[1..];
    forall i: nat | i < |rest|
      ensures TakenAt(s, steps, e, i + 1) <==> TakenAt(t, rest, e, i)
    {
      ShiftRun(s, steps, e, i);
    }
    if !TakenAt(s, steps, e, 0) && NeverTaken(t, rest, e) {
      forall j | 0 <= j < |steps|
        ensures !TakenAt(s, steps, e, j)
      {
        assert j > 0 ==> !TakenAt(t, rest, e, j - 1);
      }
    }
  }

  lemma LeftByShifts(s: System, steps: seq<Step>, e: AppEvent, i: nat)
    requires ValidRun(s, steps) && i + 1 < |steps|
    ensures LeftBy(s, steps, e, i + 1) <==> LeftBy(Apply(s, steps[0]), steps[1..], e, i)
  {
    var t, rest := Apply(s, steps[0]), steps[1..];
    forall j: nat | j < |rest|
      ensures TakenAt(s, steps, e, j + 1) <==> TakenAt(t, rest, e, j)
    {
      ShiftRun(s, steps, e, j);
    }
    ShiftRun(s, steps, e, i);
    if LeftBy(t, rest, e, i) {
      forall j | i + 1 < j < |steps|
        ensures !TakenAt(s, steps, e, j)
      {
        assert !TakenAt(t, rest, e, j - 1);
      }
    }
  }

  lemma SomeLeftShifts(s: System, steps: seq<Step>, e: AppEvent)
    requires ValidRun(s, steps) && steps != []
    ensures (exists i :: LeftBy(s, steps, e, i)) <==>
              (exists i :: LeftBy(Apply(s, steps[0]), steps[1..], e, i)) || LeftBy(s, steps, e, 0)
  {
    var t, rest := Apply(s, steps[0]), steps[1..];
    forall i: nat | i < |rest|
      ensures LeftBy(s, steps, e, i + 1) <==> LeftBy(t, rest, e, i)
    {
      LeftByShifts(s, steps, e, i);
    }
    if i :| LeftBy(s, steps, e, i) && i != 0 {
      assert LeftBy(t, rest, e, i - 1);
    }
    if i :| LeftBy(t, rest, e, i) {
      assert LeftBy(s, steps, e, i + 1);
    }
  }

  lemma FirstLeft(s: System, steps: seq<Step>, e: AppEvent)
    requires ValidRun(s, steps) && steps != []
    ensures LeftBy(s, steps, e, 0) <==>
              AcceptedAt(s, steps, e, 0) && NeverTaken(Apply(s, steps[0]), steps[1..], e)
  {
    NeverTakenShifts(s, steps, e);
  }

  lemma {:induction false} PendingAfterIff(s: System, steps: seq<Step>, e: AppEvent)
    requires ValidRun(s, steps) && IsAsync(e)
    ensures e in After(s, steps).m.raised <==>
              (e in s.m.raised && NeverTaken(s, steps, e)) || exists i :: LeftBy(s, steps, e, i)
    decreases |steps|
  {
    if steps != [] {
      PendingAfterIff(Apply(s, steps[0]), steps[1..], e);
      StepPending(s, steps[0], e);
      NeverTakenShifts(s, steps, e);
      SomeLeftShifts(s, steps, e);
      FirstLeft(s, steps, e);
    }
  }

  /**
   Over all runs: a request is pending exactly if it was accepted at some step and
   its transition has not been made since, however many states have passed.
   */
  lemma RememberedIff(steps: seq<Step>, e: AppEvent)
    requires ValidRun(START, steps) && IsAsync(e)
    ensures e in After(START, steps).m.raised <==> exists i :: LeftBy(START, steps, e, i)
  {
    PendingAfterIff(START, steps, e);
  }

  // ---------------------------------------------------------------------
  // When a pending request is stale
  // ---------------------------------------------------------------------

  predicate Unusable(state: AppState, e: AppEvent) { state == Quit || (e.StopActivation? && state != Activation) }

  /** A pending request has no row exactly in QUIT, or if it is a stop-activation request outside ACTIVATION. */
  lemma StaleIff(s: System, e: AppEvent)
    requires Reachable(s) && e in s.m.raised
    ensures (s.m.state, e) !in s.m.table <==> Unusable(s.m.state, e)
  {
    ReachableInv(s);
    assert (s.m.state, e) in s.m.table <==> Target(s.m.state, e).Some?;
  }

  /**
   Exactly which requests a transition turns stale: those pending, other than the
   one it is made for, that have no use in the new state. In particular a
   stop-activation request survives ACTIVATION exactly if another event ends it.
   */
  lemma TransitionLeavesStaleIff(s: System, answer: bool, e: AppEvent)
    requires Reachable(s) && s.pc.Go?
    ensures var n := MainStep(s, answer).m;
      && (e in n.raised && (n.state, e) !in n.table <==> e in s.m.raised && e != s.pc.e && Unusable(n.state, e))
      && (s.m.state == Activation && StopActivation in s.m.raised ==>
            (StopActivation in n.raised <==> s.pc.e != StopActivation))
  {
    ReachableInv(s);
    StepKeepsInv(s, Main(answer));
    GoMoves(s.m, s.pc.e);
    var n := MainStep(s, answer).m;
    assert (n.state, e) in n.table <==> Target(n.state, e).Some?;
  }

  // ---------------------------------------------------------------------
  // A stale stop-activation request aborts the next activation
  // ---------------------------------------------------------------------

  /** From here up to the return to IDLE the activation check does not run, and the state is ACTIVATION. */
  ghost predicate ReturnsUnchecked(s: System, steps: seq<Step>)
    requires ValidRun(s, steps)
    decreases |steps|
  {
    s.m.state == Idle
    || (s.m.state == Activation && !s.pc.ActivationCheck?
        && (steps == [] || ReturnsUnchecked(Apply(s, steps[0]), steps[1..])))
  }

  ghost predicate PassesIdle(s: System, steps: seq<Step>)
    requires ValidRun(s, steps)
    decreases |steps|
  {
    s.m.state == Idle || (steps != [] && PassesIdle(Apply(s, steps[0]), steps[1..]))
  }

  /** Statements left before IDLE on the way a stop-activation request takes; zero off it. */
  function StopDistance(pc: Pc): nat {
    match pc
    case LoopTest => 6
    case ActivationTest(activate) => if activate then 0 else 5
    case ActivationReadStop => 4
    case ActivationDone(activate) => if activate then 0 else 3
    case ActivationReadStopAgain => 2
    case Go(e) => if e.StopActivation? then 1 else 0
    case _ => 0
  }

  ghost predicate OnStopPath(s: System) {
    CoreInv(s) && s.m.state == Activation && StopActivation in s.m.raised && StopDistance(s.pc) > 0
  }

  lemma StopPathStep(s: System, step: Step)
    requires OnStopPath(s) && Enabled(s, step)
    ensures var t := Apply(s, step);
      (t.m.state == Idle && step.Main?)
      || (OnStopPath(t) && StopDistance(t.pc) + (if step.Main? then 1 else 0) <= StopDistance(s.pc))
    ensures Enabled(s, Main(true))
  {
    StepKeepsCore(s, step);
    if s.pc.Go? {
      GoMoves(s.m, s.pc.e);
    }
  }

  lemma {:induction false} StopPathRun(s: System, steps: seq<Step>)
    requires OnStopPath(s) && ValidRun(s, steps)
    ensures ReturnsUnchecked(s, steps)
    ensures Results.MainStepsIn(steps) >= StopDistance(s.pc) ==> PassesIdle(s, steps)
    decreases |steps|
  {
    if steps != [] {
      StopPathStep(s, steps[0]);
      if Apply(s, steps[0]).m.state != Idle {
        StopPathRun(Apply(s, steps[0]), steps[1..]);
      }
    }
  }

  /** The activation returns to IDLE, within six statements of the main thread, without the check, RUN or QUIT. */
  ghost predicate Aborted(s: System, steps: seq<Step>)
    requires ValidRun(s, steps)
  {
    ReturnsUnchecked(s, steps) && (Results.MainStepsIn(steps) >= 6 ==> PassesIdle(s, steps))
  }

  ghost predicate AtEntry(s: System) { s.pc == LoopTest && s.m.state == Activation }

  lemma Prepend(s: System, step: Step, rest: seq<Step>) returns (steps: seq<Step>)
    requires Enabled(s, step) && ValidRun(Apply(s, step), rest)
    ensures ValidRun(s, steps) && After(s, steps) == After(Apply(s, step), rest)
    ensures ReturnsUnchecked(s, steps) && s.m.state != Idle ==> ReturnsUnchecked(Apply(s, step), rest)
  {
    steps := [step] + rest;
    assert steps[1..] == rest;
  }

  lemma EscapeFromDone(s: System) returns (steps: seq<Step>)
    requires CoreInv(s) && s.pc == ActivationDone(false) && StopActivation !in s.m.raised
    ensures ValidRun(s, steps) && !ReturnsUnchecked(s, steps)
  {
    var t := MainStep(s, true);
    StepKeepsCore(s, Main(true));
    var u := MainStep(t, true);
    GoMoves(u.m, QuitRequest);
    steps := Prepend(u, Main(true), []);
    steps := Prepend(t, Main(true), steps);
    steps := Prepend(s, Main(true), steps);
  }

  lemma EscapeFromReadQuit(s: System) returns (steps: seq<Step>)
    requires CoreInv(s) && s.pc == ActivationReadQuit && StopActivation !in s.m.raised
    ensures ValidRun(s, steps) && !ReturnsUnchecked(s, steps)
  {
    var t := MainStep(s, true);
    StepKeepsCore(s, Main(true));
    if t.pc == ActivationDone(false) {
      steps := EscapeFromDone(t);
      steps := Prepend(s, Main(true), steps);
    } else {
      steps := Prepend(s, Main(true), []);
    }
  }

  /** Without a stop-activation request the activation can run its check, or leave for QUIT. */
  lemma EscapeFromEntry(s: System) returns (steps: seq<Step>)
    requires CoreInv(s) && AtEntry(s) && StopActivation !in s.m.raised
    ensures ValidRun(s, steps) && !ReturnsUnchecked(s, steps)
  {
    var t := MainStep(s, true);
    StepKeepsCore(s, Main(true));
    var u := MainStep(t, true);
    StepKeepsCore(t, Main(true));
    var v := MainStep(u, true);
    StepKeepsCore(u, Main(true));
    steps := EscapeFromReadQuit(v);
    steps := Prepend(u, Main(true), steps);
    steps := Prepend(t, Main(true), steps);
    steps := Prepend(s, Main(true), steps);
  }

  lemma AbortedIffPending(s: System)
    requires CoreInv(s) && AtEntry(s)
    ensures (forall steps :: ValidRun(s, steps) ==> Aborted(s, steps)) <==> StopActivation in s.m.raised
  {
    if StopActivation in s.m.raised {
      forall steps | ValidRun(s, steps)
        ensures Aborted(s, steps)
      {
        StopPathRun(s, steps);
      }
    } else {
      var steps := EscapeFromEntry(s);
      assert !Aborted(s, steps);
    }
  }

  /**
   Exactly when an activation is aborted: from its start every continuation
   returns to IDLE without the check if and only if, somewhere in the past, a
   stop-activation request was accepted and has not been honoured since.
   */
  lemma ActivationAbortedIff(past: seq<Step>)
    requires ValidRun(START, past) && AtEntry(After(START, past))
    ensures (forall steps :: ValidRun(After(START, past), steps) ==> Aborted(After(START, past), steps))
       <==> exists i :: LeftBy(START, past, StopActivation, i)
  {
    ReachableInv(After(START, past));
    AbortedIffPending(After(START, past));
    RememberedIff(past, StopActivation);
  }

  /** Every activation started from here is aborted, up to the first one. */
  ghost predicate NextActivationAborted(s: System, steps: seq<Step>)
    requires ValidRun(s, steps)
    decreases |steps|
  {
    if s.m.state == Activation
    then Aborted(s, steps)
    else steps == [] || NextActivationAborted(Apply(s, steps[0]), steps[1..])
  }

  /** Only ACTIVATION honours the request, and it is entered at the loop test. */
  lemma StaleStopWaits(s: System, step: Step)
    requires Inv(s) && StopActivation in s.m.raised && s.m.state != Activation && Enabled(s, step)
    ensures StopActivation in Apply(s, step).m.raised
    ensures Apply(s, step).m.state == Activation ==> OnStopPath(Apply(s, step)) && Apply(s, step).pc == LoopTest
  {
    StepKeepsInv(s, step);
    if step.Main? && s.pc.Go? {
      GoMoves(s.m, s.pc.e);
    }
  }

  lemma {:induction false} StaleStopAborts(s: System, steps: seq<Step>)
    requires Inv(s) && StopActivation in s.m.raised && s.m.state != Activation && ValidRun(s, steps)
    ensures NextActivationAborted(s, steps)
    decreases |steps|
  {
    if steps != [] {
      var t := Apply(s, steps[0]);
      StaleStopWaits(s, steps[0]);
      StepKeepsInv(s, steps[0]);
      if t.m.state == Activation {
        StopPathRun(t, steps[1..]);
      } else {
        StaleStopAborts(t, steps[1..]);
      }
    }
  }

  /**
   A stop-activation request that lost against a successful check stays until the
   next activation, in every run, and aborts it: no check, back in IDLE within six
   statements of the main thread.
   */
  lemma LostStopAbortsNextActivation(s: System, steps: seq<Step>)
    requires Reachable(s) && StopActivation in s.m.raised && s.m.state != Activation && ValidRun(s, steps)
    ensures NextActivationAborted(s, steps)
  {
    ReachableInv(s);
    StaleStopAborts(s, steps);
  }

  // ---------------------------------------------------------------------
  // Two runs that end with a stale request
  // ---------------------------------------------------------------------

  lemma PrependTwo(s: System, a: Step, b: Step, rest: seq<Step>) returns (steps: seq<Step>)
    requires Enabled(s, a) && Enabled(Apply(s, a), b) && ValidRun(Apply(Apply(s, a), b), rest)
    ensures ValidRun(s, steps) && After(s, steps) == After(Apply(Apply(s, a), b), rest)
  {
    steps := Prepend(Apply(s, a), b, rest);
    steps := Prepend(s, a, steps);
  }

  /** A point of the run below: the program counter, the state and the pending requests. */
  ghost predicate Point(s: System, pc: Pc, state: AppState, raised: set<AppEvent>) {
    HasTargets(s.m.table) && !s.m.quit && s.pc == pc && s.m.state == state && s.m.raised == raised
  }

  predicate RunsWithStaleStop(s: System) { s.m.state == Running && StopActivation in s.m.raised }

  lemma StaleFromDone(s: System) returns (steps: seq<Step>)
    requires Point(s, ActivationDone(true), Activation, {StopActivation})
    ensures ValidRun(s, steps) && RunsWithStaleStop(After(s, steps))
  {
    GoMoves(MainStep(s, true).m, Activated);
    steps := PrependTwo(s, Main(true), Main(true), []);
  }

  lemma StaleFromCheck(s: System) returns (steps: seq<Step>)
    requires Point(s, ActivationCheck, Activation, {})
    ensures ValidRun(s, steps) && RunsWithStaleStop(After(s, steps))
  {
    assert (Activation, StopActivation) in s.m.table;
    var t := Apply(s, Request(StopActivation));
    assert Point(t, ActivationCheck, Activation, {StopActivation});
    steps := StaleFromDone(MainStep(MainStep(t, true), true));
    steps := PrependTwo(t, Main(true), Main(true), steps);
    steps := Prepend(s, Request(StopActivation), steps);
  }

  lemma StaleFromActivation(s: System) returns (steps: seq<Step>)
    requires Point(s, LoopTest, Activation, {})
    ensures ValidRun(s, steps) && RunsWithStaleStop(After(s, steps))
  {
    var t := MainStep(MainStep(s, true), true);
    assert Point(t, ActivationReadStop, Activation, {});
    steps := StaleFromCheck(MainStep(MainStep(t, true), true));
    steps := PrependTwo(t, Main(true), Main(true), steps);
    steps := PrependTwo(s, Main(true), Main(true), steps);
  }

  lemma StaleFromIdle(s: System) returns (steps: seq<Step>)
    requires Point(s, IdleWait, Idle, {})
    ensures ValidRun(s, steps) && RunsWithStaleStop(After(s, steps))
  {
    assert (Idle, ActivationRequest) in s.m.table;
    var t := Apply(s, Request(ActivationRequest));
    assert Point(t, IdleWait, Idle, {ActivationRequest});
    var u := MainStep(MainStep(t, true), true);
    assert Point(u, Go(ActivationRequest), Idle, {ActivationRequest});
    GoMoves(u.m, ActivationRequest);
    steps := StaleFromActivation(MainStep(u, true));
    steps := Prepend(u, Main(true), steps);
    steps := PrependTwo(t, Main(true), Main(true), steps);
    steps := Prepend(s, Request(ActivationRequest), steps);
  }

  lemma StaleFromStart(s: System) returns (steps: seq<Step>)
    requires Point(s, StartMonitoring, Initialization, {})
    ensures ValidRun(s, steps) && RunsWithStaleStop(After(s, steps))
  {
    var t := MainStep(s, true);
    GoMoves(t.m, Initialized);
    var u := MainStep(t, true);
    steps := StaleFromIdle(MainStep(u, true));
    steps := Prepend(u, Main(true), steps);
    steps := PrependTwo(s, Main(true), Main(true), steps);
  }

  /**
   A stop-activation request that loses against a successful check stays pending
   through the whole RUN state. Here is a run that ends running with it pending,
   although nobody can raise it there any more.
   */
  lemma StopActivationOutlivesActivation() returns (steps: seq<Step>)
    ensures ValidRun(START, steps) && RunsWithStaleStop(After(START, steps))
    ensures (Running, StopActivation) !in TABLE
  {
    RowAgrees(Running, StopActivation);
    TableIsTarget(TABLE);
    steps := StaleFromStart(START);
  }

  predicate QuitsWithStaleActivation(s: System) { s.m.state == Quit && ActivationRequest in s.m.raised }

  lemma StaleInQuitFromRead(s: System) returns (steps: seq<Step>)
    requires Point(s, IdleReadQuit, Idle, {QuitRequest})
    ensures ValidRun(s, steps) && QuitsWithStaleActivation(After(s, steps))
  {
    assert (Idle, ActivationRequest) in s.m.table;
    var t := Apply(s, Request(ActivationRequest));
    var u := MainStep(t, true);
    GoMoves(u.m, QuitRequest);
    steps := PrependTwo(t, Main(true), Main(true), []);
    steps := Prepend(s, Request(ActivationRequest), steps);
  }

  lemma StaleInQuitFromIdle(s: System) returns (steps: seq<Step>)
    requires Point(s, IdleWait, Idle, {})
    ensures ValidRun(s, steps) && QuitsWithStaleActivation(After(s, steps))
  {
    assert (Idle, QuitRequest) in s.m.table;
    var t := Apply(s, Request(QuitRequest));
    assert Point(t, IdleWait, Idle, {QuitRequest});
    steps := StaleInQuitFromRead(MainStep(MainStep(t, true), true));
    steps := PrependTwo(t, Main(true), Main(true), steps);
    steps := Prepend(s, Request(QuitRequest), steps);
  }

  lemma StaleInQuitFromStart(s: System) returns (steps: seq<Step>)
    requires Point(s, StartMonitoring, Initialization, {})
    ensures ValidRun(s, steps) && QuitsWithStaleActivation(After(s, steps))
  {
    var t := MainStep(s, true);
    GoMoves(t.m, Initialized);
    var u := MainStep(t, true);
    steps := StaleInQuitFromIdle(MainStep(u, true));
    steps := Prepend(u, Main(true), steps);
    steps := PrependTwo(s, Main(true), Main(true), steps);
  }

  /** An activation request accepted while the machine is on its way from IDLE to QUIT is pending there. */
  lemma ActivationRequestOutlivesIdle() returns (steps: seq<Step>)
    ensures ValidRun(START, steps) && QuitsWithStaleActivation(After(START, steps))
    ensures (Quit, ActivationRequest) !in TABLE
  {
    RowAgrees(Quit, ActivationRequest);
    TableIsTarget(TABLE);
    steps := StaleInQuitFromStart(START);
  }
}
