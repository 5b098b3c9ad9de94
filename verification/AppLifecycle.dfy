/** The application's states, events and transition table. */
module AppStateMachine {
  import opened Options
  import opened StateMachines

  datatype AppState = Initialization | Idle | Activation | Deactivation | Running | Failed | Quit

  datatype AppEvent =
    | Initialized | Deactivated | FailedActivation | Activated | Failure
    | ActivationRequest | DeactivationRequest | QuitRequest | StopActivation

  const TABLE: map<(AppState, AppEvent), Option<AppState>> := map[
    (Initialization, Initialized) := Some(Idle),
    (Idle, ActivationRequest) := Some(Activation),
    (Activation, Activated) := Some(Running),
    (Activation, FailedActivation) := Some(Idle),
    (Activation, StopActivation) := Some(Idle),
    (Running, DeactivationRequest) := Some(Deactivation),
    (Running, Failure) := Some(Failed),
    (Deactivation, Deactivated) := Some(Idle),
    (Failed, DeactivationRequest) := Some(Deactivation),
    (Idle, QuitRequest) := Some(Quit),
    (Activation, QuitRequest) := Some(Quit),
    (Running, QuitRequest) := Some(Quit),
    (Failed, QuitRequest) := Some(Quit),
    (Deactivation, QuitRequest) := Some(Quit)]

  /** The table read as a function: the state an event leads to, if it has a row. */
  function Target(state: AppState, e: AppEvent): Option<AppState> {
    match state
    case Initialization => if e.Initialized? then Some(Idle) else None
    case Idle => if e.ActivationRequest? then Some(Activation) else if e.QuitRequest? then Some(Quit) else None
    case Activation =>
      if e.Activated? then Some(Running)
      else if e.FailedActivation? || e.StopActivation? then Some(Idle)
      else if e.QuitRequest? then Some(Quit) else None
    case Running =>
      if e.DeactivationRequest? then Some(Deactivation)
      else if e.Failure? then Some(Failed)
      else if e.QuitRequest? then Some(Quit) else None
    case Deactivation => if e.Deactivated? then Some(Idle) else if e.QuitRequest? then Some(Quit) else None
    case Failed => if e.DeactivationRequest? then Some(Deactivation) else if e.QuitRequest? then Some(Quit) else None
    case Quit => None
  }

  /** A table with exactly the rows of `Target`. */
  ghost predicate HasTargets(table: map<(AppState, AppEvent), Option<AppState>>) {
    forall state, e ::
      && ((state, e) in table <==> Target(state, e).Some?)
      && ((state, e) in table ==> table[(state, e)] == Target(state, e))
  }

  lemma RowAgrees(state: AppState, e: AppEvent)
    ensures (state, e) in TABLE <==> Target(state, e).Some?
    ensures (state, e) in TABLE ==> TABLE[(state, e)] == Target(state, e)
  {
  }

  lemma SameTargets(a: map<(AppState, AppEvent), Option<AppState>>, b: map<(AppState, AppEvent), Option<AppState>>)
    requires HasTargets(b)
    ensures HasTargets(a) <==> a == b
  {
    if HasTargets(a) {
      forall row
        ensures row in a <==> row in b
        ensures row in a ==> a[row] == b[row]
      {
        assert row == (row.0, row.1);
      }
    }
  }

  /** The literal table and the function agree, row by row and on every missing row. */
  lemma TableIsTarget(table: map<(AppState, AppEvent), Option<AppState>>)
    ensures HasTargets(table) <==> table == TABLE
  {
    forall state, e
      ensures (state, e) in TABLE <==> Target(state, e).Some?
      ensures (state, e) in TABLE ==> TABLE[(state, e)] == Target(state, e)
    {
      RowAgrees(state, e);
    }
    SameTargets(table, TABLE);
  }

  predicate IsAsync(e: AppEvent) {
    e.ActivationRequest? || e.DeactivationRequest? || e.QuitRequest? || e.StopActivation?
  }

  const INITIAL: Machine<AppState, AppEvent> := Machine(Initialization, Some(Initialization), TABLE, {}, false)
}

/**
 The life cycle of a periodic application: the main thread runs one activity per
 state, other threads raise requests at any moment, and a monitor thread
 publishes the state and must approve termination.

 A run is a sequence of steps. `raiseEvent` and `nextState` are one step each;
 every single read of a flag is a step of its own, so requests can fall between
 any two reads. What the callbacks answer is a choice in the step.
 */
module AppLifecycle {
  import opened Options
  import opened StateMachines
  import opened AppStateMachine

  type AppMachine = Machine<AppState, AppEvent>

  /** The statement the main thread is about to execute. `Go(e)` is a call of `nextState(e)`. */
  datatype Pc =
    | StartMonitoring | LoopTest | Go(e: AppEvent) | Finished
    | IdleWait | IdleReadActivation | IdleReadQuit
    | ActivationTest(activate: bool) | ActivationReadStop | ActivationReadQuit | ActivationCheck
    | ActivationDone(activate: bool) | ActivationReadStopAgain
    | RunReadDeactivation(failure: bool) | RunReadQuit(failure: bool) | RunTestFailure(failure: bool) | RunBody
    | RunDone(failure: bool) | RunReadDeactivationAgain | RunReadQuitAgain
    | DeactivationTest(done: bool) | DeactivationReadQuit | DeactivationBody | DeactivationDone(done: bool)
    | FailWait | FailReadDeactivation | FailReadQuit
    | QuitClose | QuitWait | QuitStop

  /** The monitor thread, with what it has read in this pass. */
  datatype Monitor =
    | Off | ReadState | ReadDesired(current: AppState) | Publish(current: AppState, desired: AppState)
    | TestQuit(current: AppState, desired: AppState) | Sleeping | Ended

  /** `should_quit`, `can_die`, and whether a null desired state was ever dereferenced. */
  datatype Flags = Flags(shouldQuit: bool, canDie: bool, crashed: bool)

  datatype System = System(m: AppMachine, pc: Pc, monitor: Monitor, flags: Flags, published: seq<(AppState, AppState)>)

  datatype Step = Main(answer: bool) | Watch | Request(e: AppEvent)

  const START: System := System(INITIAL, StartMonitoring, Off, Flags(false, false, false), [])

  // ---------------------------------------------------------------------
  // Steps
  // ---------------------------------------------------------------------

  predicate Raised(s: System, e: AppEvent) { e in s.m.raised }

  predicate MainEnabled(s: System) {
    && s.pc != Finished
    && (s.pc == IdleWait ==> Raised(s, ActivationRequest) || Raised(s, QuitRequest))
    && (s.pc == FailWait ==> Raised(s, DeactivationRequest) || Raised(s, QuitRequest))
    && (s.pc == QuitWait ==> s.flags.canDie)
  }

  predicate Enabled(s: System, step: Step) {
    match step
    case Main(_) => MainEnabled(s)
    case Watch => s.monitor != Off && s.monitor != Ended
    case Request(e) => IsAsync(e)
  }

  /** The first statement of a state's activity. */
  function Entry(state: AppState): Pc {
    match state
    case Initialization => LoopTest
    case Idle => IdleWait
    case Activation => ActivationTest(false)
    case Deactivation => DeactivationTest(false)
    case Running => RunReadDeactivation(false)
    case Failed => FailWait
    case Quit => QuitClose
  }

  /** Where the main thread goes from a statement that changes nothing but the program counter. */
  function Successor(pc: Pc, m: AppMachine, answer: bool): Pc {
    match pc
    case LoopTest => if m.quit then Finished else Entry(m.state)
    // idle()
    case IdleWait => IdleReadActivation
    case IdleReadActivation => if ActivationRequest in m.raised then Go(ActivationRequest) else IdleReadQuit
    case IdleReadQuit => if QuitRequest in m.raised then Go(QuitRequest) else LoopTest
    // activation()
    case ActivationTest(activate) => if activate then ActivationDone(activate) else ActivationReadStop
    case ActivationReadStop => if StopActivation in m.raised then ActivationDone(false) else ActivationReadQuit
    case ActivationReadQuit => if QuitRequest in m.raised then ActivationDone(false) else ActivationCheck
    case ActivationCheck => ActivationTest(answer)
    case ActivationDone(activate) => if activate then Go(Activated) else ActivationReadStopAgain
    case ActivationReadStopAgain => if StopActivation in m.raised then Go(StopActivation) else Go(QuitRequest)
    // run()
    case RunReadDeactivation(failure) =>
      if DeactivationRequest in m.raised then RunDone(failure) else RunReadQuit(failure)
    case RunReadQuit(failure) => if QuitRequest in m.raised then RunDone(failure) else RunTestFailure(failure)
    case RunTestFailure(failure) => if failure then RunDone(failure) else RunBody
    case RunBody => RunReadDeactivation(answer)
    case RunDone(failure) => if failure then Go(Failure) else RunReadDeactivationAgain
    case RunReadDeactivationAgain =>
      if DeactivationRequest in m.raised then Go(DeactivationRequest) else RunReadQuitAgain
    case RunReadQuitAgain => if QuitRequest in m.raised then Go(QuitRequest) else LoopTest
    // deactivating() and deactivation()
    case DeactivationTest(done) => if done then DeactivationDone(done) else DeactivationReadQuit
    case DeactivationReadQuit => if QuitRequest in m.raised then DeactivationDone(false) else DeactivationBody
    case DeactivationBody => DeactivationTest(answer)
    case DeactivationDone(done) =>
      if QuitRequest in m.raised then Go(QuitRequest) else if done then Go(Deactivated) else Go(QuitRequest)
    // fail()
    case FailWait => FailReadDeactivation
    case FailReadDeactivation => if DeactivationRequest in m.raised then Go(DeactivationRequest) else FailReadQuit
    case FailReadQuit => if QuitRequest in m.raised then Go(QuitRequest) else LoopTest
    // the rest
    case StartMonitoring => Go(Initialized)
    case Go(_) => LoopTest
    case QuitClose => QuitWait
    case QuitWait => QuitStop
    case QuitStop => LoopTest
    case Finished => Finished
  }

  function MachineAfter(m: AppMachine, pc: Pc): AppMachine {
    match pc
    case Go(e) => if IsAsync(e) then NextAsync(m, e) else Next(m, e)
    case QuitStop => m.(quit := true)
    case _ => m
  }

  function MainStep(s: System, answer: bool): System {
    s.(m := MachineAfter(s.m, s.pc),
       pc := Successor(s.pc, s.m, answer),
       monitor := if s.pc == StartMonitoring then ReadState else s.monitor,
       flags := if s.pc == QuitClose then s.flags.(shouldQuit := true) else s.flags)
  }

  function WatchStep(s: System): System {
    match s.monitor
    case Off => s
    case ReadState => s.(monitor := ReadDesired(s.m.state))
    case ReadDesired(current) =>
      if s.m.desired.None? then s.(flags := s.flags.(crashed := true))
      else s.(monitor := Publish(current, s.m.desired.value))
    case Publish(current, desired) =>
      s.(published := s.published + [(current, desired)], monitor := TestQuit(current, desired))
    case TestQuit(current, desired) =>
      if s.flags.shouldQuit && current == desired && current == Quit
      then s.(flags := s.flags.(canDie := true), monitor := Ended)
      else s.(monitor := Sleeping)
    case Sleeping => s.(monitor := ReadState)
    case Ended => s
  }

  function Apply(s: System, step: Step): System {
    match step
    case Main(answer) => MainStep(s, answer)
    case Watch => WatchStep(s)
    case Request(e) => s.(m := Raise(s.m, e))
  }

  ghost predicate ValidRun(s: System, steps: seq<Step>)
    decreases |steps|
  {
    steps == [] || (Enabled(s, steps[0]) && ValidRun(Apply(s, steps[0]), steps[1..]))
  }

  ghost function After(s: System, steps: seq<Step>): System
    requires ValidRun(s, steps)
    decreases |steps|
  {
    if steps == [] then s else After(Apply(s, steps[0]), steps[1..])
  }

  /** The system before step `i` of a run. */
  ghost function StateAt(s: System, steps: seq<Step>, i: nat): System
    requires ValidRun(s, steps) && i <= |steps|
    decreases i
  {
    if i == 0 then s else StateAt(Apply(s, steps[0]), steps[1..], i - 1)
  }

  ghost predicate Reachable(s: System) {
    exists steps: seq<Step> :: ValidRun(START, steps) && s == After(START, steps)
  }

  // ---------------------------------------------------------------------
  // The invariant
  // ---------------------------------------------------------------------

  /** The state whose activity a statement belongs to; `None` for the loop around them. */
  function ActivityOf(pc: Pc): Option<AppState> {
    match pc
    case StartMonitoring => Some(Initialization)
    case IdleWait | IdleReadActivation | IdleReadQuit => Some(Idle)
    case ActivationTest(_) | ActivationReadStop | ActivationReadQuit | ActivationCheck
       | ActivationDone(_) | ActivationReadStopAgain => Some(Activation)
    case RunReadDeactivation(_) | RunReadQuit(_) | RunTestFailure(_) | RunBody
       | RunDone(_) | RunReadDeactivationAgain | RunReadQuitAgain => Some(Running)
    case DeactivationTest(_) | DeactivationReadQuit | DeactivationBody | DeactivationDone(_) => Some(Deactivation)
    case FailWait | FailReadDeactivation | FailReadQuit => Some(Failed)
    case QuitClose | QuitWait | QuitStop | Finished => Some(Quit)
    case LoopTest | Go(_) => None
  }

  /** The activity is the state's own, and a transition about to be taken has a row. */
  ghost predicate ControlFits(pc: Pc, m: AppMachine) {
    && HasTargets(m.table)
    && (ActivityOf(pc).Some? ==> m.state == ActivityOf(pc).value)
    && (pc.Go? ==> Target(m.state, pc.e).Some?)
    && (pc.LoopTest? ==> m.state != Initialization)
  }

  /** What the flags the main thread has seen still tell it: only the main thread lowers a flag. */
  ghost predicate EvidenceHolds(pc: Pc, raised: set<AppEvent>) {
    match pc
    case IdleReadActivation => ActivationRequest in raised || QuitRequest in raised
    case IdleReadQuit => QuitRequest in raised
    case ActivationDone(activate) => activate || StopActivation in raised || QuitRequest in raised
    case ActivationReadStopAgain => StopActivation in raised || QuitRequest in raised
    case RunDone(failure) => failure || DeactivationRequest in raised || QuitRequest in raised
    case RunReadDeactivationAgain => DeactivationRequest in raised || QuitRequest in raised
    case RunReadQuitAgain => QuitRequest in raised
    case DeactivationDone(done) => done || QuitRequest in raised
    case FailReadDeactivation => DeactivationRequest in raised || QuitRequest in raised
    case FailReadQuit => QuitRequest in raised
    case Go(e) => IsAsync(e) ==> e in raised
    case _ => true
  }

  /** The quit handshake between the main thread and the monitor. */
  ghost predicate HandshakeFits(s: System) {
    && (s.flags.shouldQuit ==> s.m.state == Quit && s.pc != QuitClose && !s.pc.Go?)
    && (s.m.state == Quit && (s.pc == QuitWait || s.pc == QuitStop || s.pc == Finished) ==> s.flags.shouldQuit)
    && (s.m.quit <==> s.pc == Finished || (s.pc == LoopTest && s.flags.shouldQuit))
    && (s.flags.canDie <==> s.monitor == Ended)
    && (s.flags.canDie ==> s.flags.shouldQuit && (Quit, Quit) in s.published)
    && (s.pc == QuitStop || s.m.quit ==> s.flags.canDie)
    && (s.monitor == Off <==> s.pc == StartMonitoring)
    && (s.monitor.TestQuit? ==>
          s.published != [] && s.published[|s.published| - 1] == (s.monitor.current, s.monitor.desired))
  }

  /** Which requests can be pending in which state. */
  ghost predicate RequestsFit(m: AppMachine) {
    && (ActivationRequest in m.raised ==> m.state == Idle || m.state == Quit)
    && (DeactivationRequest in m.raised ==> m.state == Running || m.state == Failed || m.state == Quit)
    && (QuitRequest in m.raised ==> m.state != Initialization && m.state != Quit)
    && (StopActivation in m.raised ==> m.state != Initialization)
    && (forall e :: e in m.raised ==> IsAsync(e))
  }

  /** The desired state is the current one or the successor by some pending request. */
  ghost predicate DesiredFits(m: AppMachine) {
    && m.desired.Some?
    && (m.desired.value == m.state || exists e :: e in m.raised && Target(m.state, e) == m.desired)
  }

  ghost predicate CoreInv(s: System) {
    && ControlFits(s.pc, s.m) && EvidenceHolds(s.pc, s.m.raised) && HandshakeFits(s)
    && s.m.desired.Some? && !s.flags.crashed
  }

  ghost predicate Inv(s: System) { CoreInv(s) && RequestsFit(s.m) && DesiredFits(s.m) }

  // -- Preservation

  /** What another thread's request may do: flags only go up, and the desired state is never null. */
  ghost predicate FlagsOnlyUp(m: AppMachine, n: AppMachine) {
    n.state == m.state && n.table == m.table && n.quit == m.quit && m.raised <= n.raised && n.desired.Some?
  }

  lemma RequestKeepsCore(s: System, n: AppMachine)
    requires CoreInv(s) && FlagsOnlyUp(s.m, n)
    ensures CoreInv(s.(m := n))
  {
  }

  /** A transition with a row moves to the row's target and changes nothing else but the event's own flag. */
  lemma GoMoves(m: AppMachine, e: AppEvent)
    requires HasTargets(m.table) && Target(m.state, e).Some?
    ensures MachineAfter(m, Go(e))
         == m.(state := Target(m.state, e).value,
               desired := Target(m.state, e),
               raised := if IsAsync(e) then m.raised - {e} else m.raised)
  {
  }

  lemma GoKeepsCore(s: System, answer: bool)
    requires CoreInv(s) && s.pc.Go?
    ensures CoreInv(MainStep(s, answer))
  {
  }

  lemma StatementKeepsControl(pc: Pc, m: AppMachine, answer: bool)
    requires ControlFits(pc, m) && EvidenceHolds(pc, m.raised) && !pc.Go? && (m.quit ==> m.state == Quit)
    requires pc.IdleWait? ==> ActivationRequest in m.raised || QuitRequest in m.raised
    requires pc.FailWait? ==> DeactivationRequest in m.raised || QuitRequest in m.raised
    ensures ControlFits(Successor(pc, m, answer), m)
    ensures EvidenceHolds(Successor(pc, m, answer), m.raised)
  {
  }

  lemma StatementKeepsHandshake(s: System, answer: bool)
    requires CoreInv(s) && MainEnabled(s) && !s.pc.Go?
    ensures HandshakeFits(MainStep(s, answer))
  {
  }

  lemma WatchKeepsCore(s: System)
    requires CoreInv(s) && Enabled(s, Watch)
    ensures CoreInv(WatchStep(s))
  {
  }

  lemma StepKeepsCore(s: System, step: Step)
    requires CoreInv(s) && Enabled(s, step)
    ensures CoreInv(Apply(s, step))
  {
    match step
    case Main(answer) =>
      if s.pc.Go? {
        GoKeepsCore(s, answer);
      } else {
        StatementKeepsControl(s.pc, s.m, answer); StatementKeepsHandshake(s, answer);
      }
    case Watch => WatchKeepsCore(s);
    case Request(e) => RequestKeepsCore(s, Raise(s.m, e));
  }

  lemma GoKeepsRequests(s: System, answer: bool)
    requires Inv(s) && s.pc.Go?
    ensures RequestsFit(MainStep(s, answer).m) && DesiredFits(MainStep(s, answer).m)
  {
  }

  lemma RaiseKeepsRequests(s: System, e: AppEvent)
    requires Inv(s) && IsAsync(e)
    ensures RequestsFit(Raise(s.m, e)) && DesiredFits(Raise(s.m, e))
  {
  }

  lemma StepKeepsInv(s: System, step: Step)
    requires Inv(s) && Enabled(s, step)
    ensures Inv(Apply(s, step))
  {
    StepKeepsCore(s, step);
    match step
    case Main(answer) => if s.pc.Go? { GoKeepsRequests(s, answer); }
    case Watch =>
    case Request(e) => RaiseKeepsRequests(s, e);
  }

  lemma {:induction false} RunKeepsInv(s: System, steps: seq<Step>)
    requires Inv(s) && ValidRun(s, steps)
    ensures Inv(After(s, steps))
    decreases |steps|
  {
    if steps != [] {
      StepKeepsInv(s, steps[0]);
      RunKeepsInv(Apply(s, steps[0]), steps[1..]);
    }
  }

  lemma ReachableInv(s: System)
    requires Reachable(s)
    ensures Inv(s)
  {
    var steps: seq<Step> :| ValidRun(START, steps) && s == After(START, steps);
    TableIsTarget(TABLE);
    RunKeepsInv(START, steps);
  }
}
