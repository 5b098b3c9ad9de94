/** What the life cycle promises, over all its runs. */
module LifecycleResults {
  import opened Options
  import opened StateMachines
  import opened AppStateMachine
  import opened AppLifecycle

  // ---------------------------------------------------------------------
  // Safety
  // ---------------------------------------------------------------------

  /**
   Which requests can be pending in which state, and what the desired state is:
   the current state or the successor by some pending request.
   */
  lemma PendingRequestsFitState(s: System)
    requires Reachable(s)
    ensures ActivationRequest in s.m.raised ==> s.m.state in {Idle, Quit}
    ensures DeactivationRequest in s.m.raised ==> s.m.state in {Running, Failed, Quit}
    ensures QuitRequest in s.m.raised ==> s.m.state !in {Initialization, Quit}
    ensures s.m.desired == Some(s.m.state)
         || exists e :: e in s.m.raised && (s.m.state, e) in s.m.table && s.m.table[(s.m.state, e)] == s.m.desired
    ensures s.m.state == Quit ==> s.m.desired == Some(Quit)
  {
    ReachableInv(s);
  }

  /** Every transition an activity asks for has a row, so no lookup ever plants a null entry; nothing is ever null. */
  lemma EveryTransitionHasRow(s: System, answer: bool)
    requires Reachable(s)
    ensures s.m.table == TABLE
    ensures s.pc.Go? ==> HasRow(s.m, s.pc.e)
    ensures s.pc.Go? ==> Some(MainStep(s, answer).m.state) == s.m.table[(s.m.state, s.pc.e)]
    ensures s.m.desired.Some? && !s.flags.crashed
  {
    ReachableInv(s);
    TableIsTarget(s.m.table);
    if s.pc.Go? {
      assert (s.m.state, s.pc.e) in s.m.table;
      GoMoves(s.m, s.pc.e);
    }
  }

  /**
   The application quits only when asked: a transition by a request always finds
   its flag raised. In particular the branches that a waiting activity would fall
   through, and the failed-deactivation branch, are never taken.
   */
  lemma TransitionsOnlyOnRequest(s: System, answer: bool)
    requires Reachable(s)
    ensures s.pc.Go? && IsAsync(s.pc.e) ==> s.pc.e in s.m.raised
    ensures s.pc in {IdleReadQuit, RunReadQuitAgain, FailReadQuit} ==> Successor(s.pc, s.m, answer) == Go(QuitRequest)
    ensures s.pc == DeactivationDone(false) ==> QuitRequest in s.m.raised
  {
    ReachableInv(s);
  }

  /** The machine stops only after the monitor has published a status with both states "quit". */
  lemma StopsOnlyAfterPublishing(s: System)
    requires Reachable(s) && (s.m.quit || s.pc == QuitStop)
    ensures s.m.state == Quit && (Quit, Quit) in s.published && s.monitor == Ended
  {
    ReachableInv(s);
  }

  // ---------------------------------------------------------------------
  // A quit request is honoured within three transitions
  // ---------------------------------------------------------------------

  /**
   At most this many transitions are left before QUIT from the start of a state's
   activity, with a quit request pending and any other requests, stale or not.
   */
  function FromEntry(state: AppState, raised: set<AppEvent>): nat {
    match state
    case Quit => 0
    case Deactivation => 1
    case Idle => if ActivationRequest in raised then (if StopActivation in raised then 3 else 2) else 1
    case Activation => if StopActivation in raised then (if ActivationRequest in raised then 3 else 2) else 1
    case Running => if DeactivationRequest in raised then 2 else 1
    case Failed => if DeactivationRequest in raised then 2 else 1
    case Initialization => if ActivationRequest in raised then (if StopActivation in raised then 4 else 3) else 2
  }

  function RunLeft(failure: bool, raised: set<AppEvent>): nat {
    (if failure then 1 else 0) + FromEntry(Running, raised)
  }

  function ActivationLeft(activate: bool, raised: set<AppEvent>): nat {
    if activate then 1 + FromEntry(Running, raised) else FromEntry(Activation, raised)
  }

  function AfterGo(m: AppMachine, e: AppEvent, raised: set<AppEvent>): nat {
    match Target(m.state, e)
    case Some(target) => FromEntry(target, raised)
    case None => 0
  }

  function TransitionsLeft(pc: Pc, m: AppMachine): nat {
    if m.state == Quit then 0
    else match pc
      case Go(e) => 1 + AfterGo(m, e, m.raised - {e})
      case IdleReadQuit => 1
      case ActivationCheck => 3
      case ActivationTest(activate) => ActivationLeft(activate, m.raised)
      case ActivationDone(activate) => ActivationLeft(activate, m.raised)
      case RunReadDeactivation(failure) => RunLeft(failure, m.raised)
      case RunReadQuit(failure) => RunLeft(failure, m.raised)
      case RunTestFailure(_) => RunLeft(true, m.raised)
      case RunBody => RunLeft(true, m.raised)
      case RunDone(failure) => RunLeft(failure, m.raised)
      case RunReadQuitAgain => 1
      case FailReadQuit => 1
      case _ => FromEntry(m.state, m.raised)
  }

  /** Statements left before the next transition, with a quit request pending. */
  function StatementsLeft(pc: Pc): nat {
    match pc
    case LoopTest => 11
    case StartMonitoring => 1
    case Go(_) => 0
    case Finished => 0
    case IdleWait => 3
    case IdleReadActivation => 2
    case IdleReadQuit => 1
    case ActivationCheck => 7
    case ActivationTest(_) => 6
    case ActivationReadStop => 5
    case ActivationReadQuit => 4
    case ActivationDone(_) => 3
    case ActivationReadStopAgain => 2
    case RunTestFailure(_) => 9
    case RunBody => 8
    case RunReadDeactivation(_) => 7
    case RunReadQuit(_) => 6
    case RunDone(_) => 4
    case RunReadDeactivationAgain => 3
    case RunReadQuitAgain => 2
    case DeactivationBody => 7
    case DeactivationTest(_) => 6
    case DeactivationReadQuit => 5
    case DeactivationDone(_) => 4
    case FailWait => 3
    case FailReadDeactivation => 2
    case FailReadQuit => 1
    case QuitClose | QuitWait | QuitStop => 0
  }

  function Rank(pc: Pc, m: AppMachine): nat {
    if m.state == Quit then 0 else 12 * TransitionsLeft(pc, m) + StatementsLeft(pc)
  }

  /** The control flow is intact and a quit request is pending, whatever else is. */
  ghost predicate QuitPending(s: System) { CoreInv(s) && QuitRequest in s.m.raised && s.m.state != Quit }

  lemma AtMostFour(s: System)
    requires QuitPending(s)
    ensures TransitionsLeft(s.pc, s.m) <= 4 && Rank(s.pc, s.m) <= 59
  {
  }

  /** A waiting activity is never stuck while a quit request is pending. */
  lemma NeverStuck(s: System)
    requires QuitPending(s)
    ensures MainEnabled(s)
  {
  }

  lemma GoLowersRank(s: System, answer: bool)
    requires QuitPending(s) && s.pc.Go?
    ensures var t := MainStep(s, answer);
      TransitionsLeft(t.pc, t.m) + 1 <= TransitionsLeft(s.pc, s.m) && (QuitPending(t) || t.m.state == Quit)
  {
    GoKeepsCore(s, answer);
    GoMoves(s.m, s.pc.e);
  }

  ghost predicate LowersRank(pc: Pc, m: AppMachine, next: Pc) {
    TransitionsLeft(next, m) <= TransitionsLeft(pc, m) && Rank(next, m) < Rank(pc, m)
  }

  ghost predicate QuitPendingAt(pc: Pc, m: AppMachine) {
    && ControlFits(pc, m) && EvidenceHolds(pc, m.raised) && QuitRequest in m.raised && m.state != Quit
    && !pc.Go? && !m.quit
  }

  lemma ActivationLowersRank(pc: Pc, m: AppMachine, answer: bool)
    requires QuitPendingAt(pc, m) && ActivityOf(pc) == Some(Activation)
    ensures LowersRank(pc, m, Successor(pc, m, answer))
  {
  }

  lemma RunLowersRank(pc: Pc, m: AppMachine, answer: bool)
    requires QuitPendingAt(pc, m) && ActivityOf(pc) == Some(Running)
    ensures LowersRank(pc, m, Successor(pc, m, answer))
  {
  }

  lemma OtherLowersRank(pc: Pc, m: AppMachine, answer: bool)
    requires QuitPendingAt(pc, m) && ActivityOf(pc) != Some(Activation) && ActivityOf(pc) != Some(Running)
    ensures LowersRank(pc, m, Successor(pc, m, answer))
  {
  }

  lemma StatementLowersRank(pc: Pc, m: AppMachine, answer: bool)
    requires QuitPendingAt(pc, m)
    ensures LowersRank(pc, m, Successor(pc, m, answer))
  {
    if ActivityOf(pc) == Some(Activation) {
      ActivationLowersRank(pc, m, answer);
    } else if ActivityOf(pc) == Some(Running) {
      RunLowersRank(pc, m, answer);
    } else {
      OtherLowersRank(pc, m, answer);
    }
  }

  /** Every statement of every activity lowers the rank, and every transition the number of transitions left. */
  lemma MainLowersRank(s: System, answer: bool)
    requires QuitPending(s)
    ensures var t := MainStep(s, answer);
      && CoreInv(t) && (QuitPending(t) || t.m.state == Quit)
      && TransitionsLeft(t.pc, t.m) + (if s.pc.Go? then 1 else 0) <= TransitionsLeft(s.pc, s.m)
      && Rank(t.pc, t.m) < Rank(s.pc, s.m)
  {
    NeverStuck(s);
    StepKeepsCore(s, Main(answer));
    if s.pc.Go? {
      GoLowersRank(s, answer);
    } else {
      StatementLowersRank(s.pc, s.m, answer);
    }
  }

  ghost predicate Quitting(s: System) { Inv(s) && (QuitRequest in s.m.raised || s.m.state == Quit) }

  /** Requests that fit the state leave one transition fewer. */
  lemma AtMostThree(s: System)
    requires Quitting(s)
    ensures TransitionsLeft(s.pc, s.m) <= 3 && Rank(s.pc, s.m) <= 47
  {
  }

  /** No new request is recorded: requests may still arrive if they are refused or already pending. */
  predicate NoNewRequest(s: System, step: Step) {
    step.Request? ==> Raise(s.m, step.e).raised == s.m.raised
  }

  ghost predicate NoNewRequests(s: System, steps: seq<Step>)
    requires ValidRun(s, steps)
    decreases |steps|
  {
    steps == [] || (NoNewRequest(s, steps[0]) && NoNewRequests(Apply(s, steps[0]), steps[1..]))
  }

  ghost function MainStepsIn(steps: seq<Step>): nat {
    if steps == [] then 0 else (if steps[0].Main? then 1 else 0) + MainStepsIn(steps[1..])
  }

  ghost function WatchStepsIn(steps: seq<Step>): nat {
    if steps == [] then 0 else (if steps[0].Watch? then 1 else 0) + WatchStepsIn(steps[1..])
  }

  ghost function TransitionsIn(s: System, steps: seq<Step>): nat
    requires ValidRun(s, steps)
    decreases |steps|
  {
    if steps == [] then 0
    else (if steps[0].Main? && s.pc.Go? then 1 else 0) + TransitionsIn(Apply(s, steps[0]), steps[1..])
  }

  /** QUIT is final: no event has a row from it, so nothing changes the machine's states any more. */
  lemma QuitIsFinal(s: System, step: Step)
    requires Inv(s) && s.m.state == Quit && Enabled(s, step)
    ensures Apply(s, step).m.state == Quit && Apply(s, step).m.desired == s.m.desired
    ensures step.Request? ==> Apply(s, step) == s
    ensures !s.pc.Go?
  {
  }

  lemma StepLowersRank(s: System, step: Step)
    requires Quitting(s) && Enabled(s, step) && NoNewRequest(s, step)
    ensures var t := Apply(s, step);
      && Quitting(t)
      && TransitionsLeft(t.pc, t.m) + (if step.Main? && s.pc.Go? then 1 else 0) <= TransitionsLeft(s.pc, s.m)
      && Rank(t.pc, t.m) <= Rank(s.pc, s.m)
      && (step.Main? && s.m.state != Quit ==> Rank(t.pc, t.m) < Rank(s.pc, s.m))
  {
    StepKeepsInv(s, step);
    if s.m.state == Quit {
      QuitIsFinal(s, step);
    } else if step.Main? {
      MainLowersRank(s, step.answer);
    }
  }

  lemma {:induction false} QuitFollowsFrom(s: System, steps: seq<Step>)
    requires Quitting(s) && ValidRun(s, steps) && NoNewRequests(s, steps)
    ensures TransitionsIn(s, steps) <= TransitionsLeft(s.pc, s.m)
    ensures MainStepsIn(steps) > Rank(s.pc, s.m) ==> After(s, steps).m.state == Quit
    ensures s.m.state == Quit ==> After(s, steps).m.state == Quit
    decreases |steps|
  {
    if steps != [] {
      StepLowersRank(s, steps[0]);
      if s.m.state == Quit {
        QuitIsFinal(s, steps[0]);
      }
      QuitFollowsFrom(Apply(s, steps[0]), steps[1..]);
    }
  }

  lemma {:induction false} StaysQuitting(s: System, steps: seq<Step>)
    requires Quitting(s) && ValidRun(s, steps) && NoNewRequests(s, steps)
    ensures Quitting(After(s, steps))
    decreases |steps|
  {
    if steps != [] {
      StepLowersRank(s, steps[0]);
      StaysQuitting(Apply(s, steps[0]), steps[1..]);
    }
  }

  /**
   From any reachable point, even in the middle of an activity, where a quit
   request is pending and no further request is recorded: the main thread is
   never blocked before QUIT, takes at most three transitions in all, and is in
   QUIT after at most 48 of its own statements, whatever the callbacks answer
   and however the other threads interleave.
   */
  lemma QuitWithinThreeTransitions(s: System, steps: seq<Step>)
    requires Reachable(s) && QuitRequest in s.m.raised && ValidRun(s, steps) && NoNewRequests(s, steps)
    ensures TransitionsIn(s, steps) <= 3
    ensures MainStepsIn(steps) >= 48 ==> After(s, steps).m.state == Quit
    ensures After(s, steps).m.state != Quit ==> Enabled(After(s, steps), Main(true))
  {
    ReachableInv(s);
    AtMostThree(s);
    QuitFollowsFrom(s, steps);
    StaysQuitting(s, steps);
    if After(s, steps).m.state != Quit {
      NeverStuck(After(s, steps));
    }
  }

  // ---------------------------------------------------------------------
  // The quit handshake completes
  // ---------------------------------------------------------------------

  /** Monitor steps left before it releases the main thread, once `should_quit` is set. */
  function ReleaseDistance(monitor: Monitor): nat {
    match monitor
    case Off => 8
    case ReadDesired(current) => if current == Quit then 3 else 8
    case Publish(current, desired) => if current == Quit && desired == Quit then 2 else 7
    case TestQuit(current, desired) => if current == Quit && desired == Quit then 1 else 6
    case Sleeping => 5
    case ReadState => 4
    case Ended => 0
  }

  /** A monitor that has read "quit" as the current state reads "quit" as the desired one too. */
  lemma StepNearsRelease(s: System, step: Step)
    requires Inv(s) && s.flags.shouldQuit && Enabled(s, step)
    ensures Inv(Apply(s, step)) && Apply(s, step).flags.shouldQuit
    ensures ReleaseDistance(Apply(s, step).monitor) + (if step.Watch? then 1 else 0) <= ReleaseDistance(s.monitor)
  {
    StepKeepsInv(s, step);
    QuitIsFinal(s, step);
  }

  lemma {:induction false} ReleasedAfter(s: System, steps: seq<Step>)
    requires Inv(s) && s.flags.shouldQuit && ValidRun(s, steps)
    ensures WatchStepsIn(steps) + ReleaseDistance(After(s, steps).monitor) <= ReleaseDistance(s.monitor)
    ensures Inv(After(s, steps)) && After(s, steps).flags.shouldQuit
    decreases |steps|
  {
    if steps != [] {
      StepNearsRelease(s, steps[0]);
      ReleasedAfter(Apply(s, steps[0]), steps[1..]);
    }
  }

  /**
   Once `should_quit` is set, eight steps of the monitor, which always contain
   one full pass, release the main thread, in spite of any requests meanwhile;
   and the monitor can always take its next step until it has.
   */
  lemma MonitorReleases(s: System, steps: seq<Step>)
    requires Reachable(s) && s.flags.shouldQuit && ValidRun(s, steps)
    ensures WatchStepsIn(steps) >= 8 ==> After(s, steps).flags.canDie
    ensures !After(s, steps).flags.canDie ==> Enabled(After(s, steps), Watch)
    ensures After(s, steps).flags.canDie && After(s, steps).pc != Finished ==> Enabled(After(s, steps), Main(true))
  {
    ReachableInv(s);
    ReleasedAfter(s, steps);
  }
}
