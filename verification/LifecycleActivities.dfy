/**
 What each activity decides: which state it leads to, given the requests pending
 and the answers of the application's callbacks.
 */
module LifecycleActivities {
  import opened Options
  import opened StateMachines
  import opened AppStateMachine
  import opened AppLifecycle
  import Results = LifecycleResults

  // ---------------------------------------------------------------------
  // The main thread by itself
  // ---------------------------------------------------------------------

  /** One main step per answer and no other; an answer counts only where a callback is called. */
  ghost predicate CanRunAlone(s: System, answers: seq<bool>)
    decreases |answers|
  {
    answers == [] || (MainEnabled(s) && CanRunAlone(MainStep(s, answers[0]), answers[1..]))
  }

  ghost function Alone(s: System, answers: seq<bool>): System
    requires CanRunAlone(s, answers)
    decreases |answers|
  {
    if answers == [] then s else Alone(MainStep(s, answers[0]), answers[1..])
  }

  /** Running alone by these answers changes nothing but the program counter. */
  ghost predicate ComesTo(s: System, answers: seq<bool>, pc: Pc) {
    CanRunAlone(s, answers) && Alone(s, answers) == s.(pc := pc)
  }

  /** At the loop test, the state's activity about to start. */
  ghost predicate AtStart(s: System, state: AppState) {
    HasTargets(s.m.table) && s.pc == LoopTest && !s.m.quit && s.m.state == state
  }

  /** In the middle of the state's activity. */
  ghost predicate Midway(s: System, pc: Pc, state: AppState) {
    HasTargets(s.m.table) && s.pc == pc && !s.m.quit && s.m.state == state
  }

  /** Running alone by these answers leads to the start of the target's activity, with a request consumed. */
  ghost predicate LeadsTo(s: System, answers: seq<bool>, target: AppState, e: AppEvent) {
    && CanRunAlone(s, answers)
    && AtStart(Alone(s, answers), target) && Alone(s, answers).m.desired == Some(target)
    && Alone(s, answers).m.raised == s.m.raised - (if IsAsync(e) then {e} else {})
  }

  /** The statements that change nothing but the program counter. */
  predicate Passive(pc: Pc) {
    !pc.Go? && !pc.StartMonitoring? && !pc.QuitClose? && !pc.QuitStop? && !pc.QuitWait? && !pc.Finished?
  }

  /** The main thread goes through these program counters, in a machine nobody changes. */
  predicate Passes(m: AppMachine, pcs: seq<Pc>, answers: seq<bool>) {
    && |pcs| == |answers| + 1
    && forall i :: 0 <= i < |answers| ==>
         && Passive(pcs[i]) && pcs[i + 1] == Successor(pcs[i], m, answers[i])
         && (pcs[i].IdleWait? ==> ActivationRequest in m.raised || QuitRequest in m.raised)
         && (pcs[i].FailWait? ==> DeactivationRequest in m.raised || QuitRequest in m.raised)
  }

  lemma {:induction false} Follow(s: System, pcs: seq<Pc>, answers: seq<bool>)
    requires Passes(s.m, pcs, answers) && s.pc == pcs[0]
    ensures ComesTo(s, answers, pcs[|answers|])
    decreases |answers|
  {
    if answers != [] {
      Follow(MainStep(s, answers[0]), pcs[1..], answers[1..]);
    }
  }

  lemma {:induction false} AloneAppend(s: System, answers: seq<bool>, answer: bool)
    requires CanRunAlone(s, answers) && MainEnabled(Alone(s, answers))
    ensures CanRunAlone(s, answers + [answer])
    ensures Alone(s, answers + [answer]) == MainStep(Alone(s, answers), answer)
    decreases |answers|
  {
    if answers != [] {
      AloneAppend(MainStep(s, answers[0]), answers[1..], answer);
      assert (answers + [answer])[1..] == answers[1..] + [answer];
    } else {
      assert CanRunAlone(MainStep(s, answer), [answer][1..]);
    }
  }

  /** Through these program counters to a transition, and its transition. */
  lemma FollowToTransition(s: System, pcs: seq<Pc>, answers: seq<bool>, e: AppEvent)
    requires answers != [] && Passes(s.m, pcs, answers[..|answers| - 1])
    requires s.pc == pcs[0] && pcs[|pcs| - 1] == Go(e)
    requires HasTargets(s.m.table) && Target(s.m.state, e).Some? && !s.m.quit
    ensures LeadsTo(s, answers, Target(s.m.state, e).value, e)
  {
    var n := |answers| - 1;
    Follow(s, pcs, answers[..n]);
    AloneAppend(s, answers[..n], answers[n]);
    assert answers[..n] + [answers[n]] == answers;
    GoMoves(s.m, e);
  }

  // ---------------------------------------------------------------------
  // Each activity
  // ---------------------------------------------------------------------

  /** IDLE: a pending activation request wins, also over a quit request. */
  lemma IdleActivates(s: System, answers: seq<bool>)
    requires AtStart(s, Idle) && ActivationRequest in s.m.raised
    requires |answers| == 4
    ensures LeadsTo(s, answers, Activation, ActivationRequest)
  {
    var pcs := [LoopTest, IdleWait,
                IdleReadActivation, Go(ActivationRequest)];
    FollowToTransition(s, pcs, answers, ActivationRequest);
  }

  /** IDLE: a quit request alone leads to QUIT. */
  lemma IdleQuits(s: System, answers: seq<bool>)
    requires AtStart(s, Idle) && ActivationRequest !in s.m.raised && QuitRequest in s.m.raised
    requires |answers| == 5
    ensures LeadsTo(s, answers, Quit, QuitRequest)
  {
    var pcs := [LoopTest, IdleWait,
                IdleReadActivation, IdleReadQuit, Go(QuitRequest)];
    FollowToTransition(s, pcs, answers, QuitRequest);
  }

  /** ACTIVATION: a pending stop request wins, before any check. */
  lemma ActivationStops(s: System, answers: seq<bool>)
    requires AtStart(s, Activation) && StopActivation in s.m.raised
    requires |answers| == 6
    ensures LeadsTo(s, answers, Idle, StopActivation)
  {
    var pcs := [LoopTest, ActivationTest(false), ActivationReadStop,
                ActivationDone(false), ActivationReadStopAgain, Go(StopActivation)];
    FollowToTransition(s, pcs, answers, StopActivation);
  }

  /** ACTIVATION: a quit request without a stop request leads to QUIT before any check. */
  lemma ActivationQuits(s: System, answers: seq<bool>)
    requires AtStart(s, Activation) && StopActivation !in s.m.raised && QuitRequest in s.m.raised
    requires |answers| == 7
    ensures LeadsTo(s, answers, Quit, QuitRequest)
  {
    var pcs := [LoopTest, ActivationTest(false), ActivationReadStop,
                ActivationReadQuit, ActivationDone(false), ActivationReadStopAgain, Go(QuitRequest)];
    FollowToTransition(s, pcs, answers, QuitRequest);
  }

  /** ACTIVATION: without either the check runs, and its answer is what the loop then tests. */
  lemma ActivationChecks(s: System, answers: seq<bool>)
    requires AtStart(s, Activation) && StopActivation !in s.m.raised && QuitRequest !in s.m.raised
    requires |answers| == 5
    ensures ComesTo(s, answers, ActivationTest(answers[4]))
  {
    var pcs := [LoopTest, ActivationTest(false), ActivationReadStop,
                ActivationReadQuit, ActivationCheck, ActivationTest(answers[4])];
    Follow(s, pcs, answers);
  }

  /** ACTIVATION: after a check that said no, the next one runs, and its answer is tested. */
  lemma ActivationRetries(s: System, answers: seq<bool>)
    requires s.pc == ActivationTest(false) && StopActivation !in s.m.raised && QuitRequest !in s.m.raised
    requires |answers| == 4
    ensures ComesTo(s, answers, ActivationTest(answers[3]))
  {
    var pcs := [ActivationTest(false), ActivationReadStop,
                ActivationReadQuit, ActivationCheck, ActivationTest(answers[3])];
    Follow(s, pcs, answers);
  }

  /** ACTIVATION: a check that said yes leads to RUN, whatever is pending. */
  lemma ActivationSucceeds(s: System, answers: seq<bool>)
    requires Midway(s, ActivationTest(true), Activation)
    requires |answers| == 3
    ensures LeadsTo(s, answers, Running, Activated)
  {
    FollowToTransition(s, [ActivationTest(true), ActivationDone(true), Go(Activated)], answers, Activated);
  }

  /** RUN: a pending deactivation request wins, also over a quit request. */
  lemma RunDeactivates(s: System, answers: seq<bool>)
    requires AtStart(s, Running) && DeactivationRequest in s.m.raised
    requires |answers| == 5
    ensures LeadsTo(s, answers, Deactivation, DeactivationRequest)
  {
    var pcs := [LoopTest, RunReadDeactivation(false),
                RunDone(false), RunReadDeactivationAgain, Go(DeactivationRequest)];
    FollowToTransition(s, pcs, answers, DeactivationRequest);
  }

  /** RUN: a quit request alone leads to QUIT. */
  lemma RunQuits(s: System, answers: seq<bool>)
    requires AtStart(s, Running) && DeactivationRequest !in s.m.raised && QuitRequest in s.m.raised
    requires |answers| == 7
    ensures LeadsTo(s, answers, Quit, QuitRequest)
  {
    var pcs := [LoopTest, RunReadDeactivation(false), RunReadQuit(false),
                RunDone(false), RunReadDeactivationAgain, RunReadQuitAgain, Go(QuitRequest)];
    FollowToTransition(s, pcs, answers, QuitRequest);
  }

  /** RUN: without either the body runs, and whether it failed is what the loop goes on with. */
  lemma RunExecutes(s: System, answers: seq<bool>)
    requires AtStart(s, Running) && DeactivationRequest !in s.m.raised && QuitRequest !in s.m.raised
    requires |answers| == 5
    ensures ComesTo(s, answers, RunReadDeactivation(answers[4]))
  {
    var pcs := [LoopTest, RunReadDeactivation(false), RunReadQuit(false),
                RunTestFailure(false), RunBody, RunReadDeactivation(answers[4])];
    Follow(s, pcs, answers);
  }

  /** RUN: after a body that did not fail, the next one runs. */
  lemma RunRepeats(s: System, answers: seq<bool>)
    requires s.pc == RunReadDeactivation(false) && DeactivationRequest !in s.m.raised && QuitRequest !in s.m.raised
    requires |answers| == 4
    ensures ComesTo(s, answers, RunReadDeactivation(answers[3]))
  {
    var pcs := [RunReadDeactivation(false), RunReadQuit(false),
                RunTestFailure(false), RunBody, RunReadDeactivation(answers[3])];
    Follow(s, pcs, answers);
  }

  /** RUN: a failed body leads to FAIL if no request is pending. */
  lemma RunFails(s: System, answers: seq<bool>)
    requires Midway(s, RunReadDeactivation(true), Running)
    requires DeactivationRequest !in s.m.raised && QuitRequest !in s.m.raised
    requires |answers| == 5
    ensures LeadsTo(s, answers, Failed, Failure)
  {
    var pcs := [RunReadDeactivation(true), RunReadQuit(true),
                RunTestFailure(true), RunDone(true), Go(Failure)];
    FollowToTransition(s, pcs, answers, Failure);
  }

  /** RUN: a failed body leads to FAIL even with a deactivation request pending, which stays pending. */
  lemma RunFailsWithDeactivation(s: System, answers: seq<bool>)
    requires Midway(s, RunReadDeactivation(true), Running) && DeactivationRequest in s.m.raised
    requires |answers| == 3
    ensures LeadsTo(s, answers, Failed, Failure)
  {
    FollowToTransition(s, [RunReadDeactivation(true), RunDone(true), Go(Failure)], answers, Failure);
  }

  /** RUN: a failed body leads to FAIL even with a quit request pending, which stays pending. */
  lemma RunFailsWithQuit(s: System, answers: seq<bool>)
    requires Midway(s, RunReadDeactivation(true), Running)
    requires DeactivationRequest !in s.m.raised && QuitRequest in s.m.raised
    requires |answers| == 4
    ensures LeadsTo(s, answers, Failed, Failure)
  {
    var pcs := [RunReadDeactivation(true), RunReadQuit(true),
                RunDone(true), Go(Failure)];
    FollowToTransition(s, pcs, answers, Failure);
  }

  /** FAIL: a pending deactivation request wins, also over a quit request. */
  lemma FailDeactivates(s: System, answers: seq<bool>)
    requires AtStart(s, Failed) && DeactivationRequest in s.m.raised
    requires |answers| == 4
    ensures LeadsTo(s, answers, Deactivation, DeactivationRequest)
  {
    var pcs := [LoopTest, FailWait,
                FailReadDeactivation, Go(DeactivationRequest)];
    FollowToTransition(s, pcs, answers, DeactivationRequest);
  }

  /** FAIL: a quit request alone leads to QUIT. */
  lemma FailQuits(s: System, answers: seq<bool>)
    requires AtStart(s, Failed) && DeactivationRequest !in s.m.raised && QuitRequest in s.m.raised
    requires |answers| == 5
    ensures LeadsTo(s, answers, Quit, QuitRequest)
  {
    var pcs := [LoopTest, FailWait,
                FailReadDeactivation, FailReadQuit, Go(QuitRequest)];
    FollowToTransition(s, pcs, answers, QuitRequest);
  }

  /** DEACTIVATION: a quit request leads to QUIT before any step of the deactivation. */
  lemma DeactivationQuits(s: System, answers: seq<bool>)
    requires AtStart(s, Deactivation) && QuitRequest in s.m.raised
    requires |answers| == 5
    ensures LeadsTo(s, answers, Quit, QuitRequest)
  {
    var pcs := [LoopTest, DeactivationTest(false),
                DeactivationReadQuit, DeactivationDone(false), Go(QuitRequest)];
    FollowToTransition(s, pcs, answers, QuitRequest);
  }

  /** DEACTIVATION: without one a step of it runs, and its answer is what the loop then tests. */
  lemma DeactivationProceeds(s: System, answers: seq<bool>)
    requires AtStart(s, Deactivation) && QuitRequest !in s.m.raised
    requires |answers| == 4
    ensures ComesTo(s, answers, DeactivationTest(answers[3]))
  {
    var pcs := [LoopTest, DeactivationTest(false),
                DeactivationReadQuit, DeactivationBody, DeactivationTest(answers[3])];
    Follow(s, pcs, answers);
  }

  /** DEACTIVATION: after a step that was not the last, the next one runs. */
  lemma DeactivationRepeats(s: System, answers: seq<bool>)
    requires s.pc == DeactivationTest(false) && QuitRequest !in s.m.raised
    requires |answers| == 3
    ensures ComesTo(s, answers, DeactivationTest(answers[2]))
  {
    var pcs := [DeactivationTest(false), DeactivationReadQuit,
                DeactivationBody, DeactivationTest(answers[2])];
    Follow(s, pcs, answers);
  }

  /** DEACTIVATION: the last step leads to IDLE. */
  lemma DeactivationEnds(s: System, answers: seq<bool>)
    requires Midway(s, DeactivationTest(true), Deactivation) && QuitRequest !in s.m.raised
    requires |answers| == 3
    ensures LeadsTo(s, answers, Idle, Deactivated)
  {
    FollowToTransition(s, [DeactivationTest(true), DeactivationDone(true), Go(Deactivated)], answers, Deactivated);
  }

  /** DEACTIVATION: a quit request wins over the last step. */
  lemma DeactivationEndsInQuit(s: System, answers: seq<bool>)
    requires Midway(s, DeactivationTest(true), Deactivation) && QuitRequest in s.m.raised
    requires |answers| == 3
    ensures LeadsTo(s, answers, Quit, QuitRequest)
  {
    FollowToTransition(s, [DeactivationTest(true), DeactivationDone(true), Go(QuitRequest)], answers, QuitRequest);
  }

  /** INITIALIZATION starts the monitor and leads to IDLE. */
  lemma InitializationEnds(s: System)
    requires HasTargets(s.m.table) && s.pc == StartMonitoring && s.m.state == Initialization && !s.m.quit
    ensures var t := MainStep(s, true); t.monitor == ReadState && LeadsTo(t, [true], Idle, Initialized)
  {
    FollowToTransition(MainStep(s, true), [Go(Initialized)], [true], Initialized);
  }

  /** QUIT closes, announces that it may be ended, and waits. */
  lemma QuitAnnounces(s: System)
    requires AtStart(s, Quit)
    ensures var t := MainStep(s, true); MainEnabled(s) && MainEnabled(t)
    ensures MainStep(MainStep(s, true), true) == s.(pc := QuitWait, flags := s.flags.(shouldQuit := true))
  {
  }

  /** Once released, QUIT stops the machine and the main thread finishes. */
  lemma QuitFinishes(s: System)
    requires s.pc == QuitWait && s.flags.canDie
    ensures var t := MainStep(s, true); var u := MainStep(t, true);
      && MainEnabled(s) && MainEnabled(t) && MainEnabled(u)
      && MainStep(u, true) == s.(pc := Finished, m := s.m.(quit := true))
  {
  }

  // ---------------------------------------------------------------------
  // Each activity at once
  // ---------------------------------------------------------------------

  /** The pending request an activity acts on before it calls any callback. */
  function Decision(state: AppState, raised: set<AppEvent>): Option<AppEvent> {
    match state
    case Idle =>
      if ActivationRequest in raised then Some(ActivationRequest)
      else if QuitRequest in raised then Some(QuitRequest) else None
    case Activation =>
      if StopActivation in raised then Some(StopActivation)
      else if QuitRequest in raised then Some(QuitRequest) else None
    case Running | Failed =>
      if DeactivationRequest in raised then Some(DeactivationRequest)
      else if QuitRequest in raised then Some(QuitRequest) else None
    case Deactivation => if QuitRequest in raised then Some(QuitRequest) else None
    case _ => None
  }

  /** The statements of an activity up to its transition by a request. */
  function Length(state: AppState, e: AppEvent): nat {
    match state
    case Idle | Failed => if e.QuitRequest? then 5 else 4
    case Activation => if e.QuitRequest? then 7 else 6
    case Running => if e.QuitRequest? then 7 else 5
    case _ => 5
  }

  /** Every activity, started with requests pending, makes the transition of the one that has precedence. */
  lemma ActivityDecides(s: System, answers: seq<bool>)
    requires AtStart(s, s.m.state) && Decision(s.m.state, s.m.raised).Some?
    requires |answers| == Length(s.m.state, Decision(s.m.state, s.m.raised).value)
    ensures var e := Decision(s.m.state, s.m.raised).value;
      Target(s.m.state, e).Some? && LeadsTo(s, answers, Target(s.m.state, e).value, e)
  {
    var e := Decision(s.m.state, s.m.raised).value;
    match s.m.state
    case Idle => if e.QuitRequest? { IdleQuits(s, answers); } else { IdleActivates(s, answers); }
    case Activation => if e.QuitRequest? { ActivationQuits(s, answers); } else { ActivationStops(s, answers); }
    case Running => if e.QuitRequest? { RunQuits(s, answers); } else { RunDeactivates(s, answers); }
    case Failed => if e.QuitRequest? { FailQuits(s, answers); } else { FailDeactivates(s, answers); }
    case Deactivation => DeactivationQuits(s, answers);
  }

  // ---------------------------------------------------------------------
  // What the callbacks' answers decide, in every run
  // ---------------------------------------------------------------------

  /** `checkActivation`, the body of RUN with its failure check, and one step of the deactivation. */
  datatype Callback = Check | Body | Ending

  function CallPc(c: Callback): Pc {
    match c case Check => ActivationCheck case Body => RunBody case Ending => DeactivationBody
  }

  /** The event by which a positive answer ends the activity, and the state it leads to. */
  function ResultOf(c: Callback): AppEvent {
    match c case Check => Activated case Body => Failure case Ending => Deactivated
  }

  function GoalOf(c: Callback): AppState {
    match c case Check => Running case Body => Failed case Ending => Idle
  }

  /** Statements left to the goal after a positive answer; zero off that way. */
  function Distance(c: Callback, pc: Pc): nat {
    match c
    case Check =>
      (match pc
       case ActivationTest(activate) => if activate then 3 else 0
       case ActivationDone(activate) => if activate then 2 else 0
       case Go(e) => if e == Activated then 1 else 0
       case _ => 0)
    case Body =>
      (match pc
       case RunReadDeactivation(failure) => if failure then 5 else 0
       case RunReadQuit(failure) => if failure then 4 else 0
       case RunTestFailure(failure) => if failure then 3 else 0
       case RunDone(failure) => if failure then 2 else 0
       case Go(e) => if e == Failure then 1 else 0
       case _ => 0)
    case Ending =>
      (match pc
       case DeactivationTest(done) => if done then 3 else 0
       case DeactivationDone(done) => if done then 2 else 0
       case Go(e) => if e == Deactivated then 1 else 0
       case _ => 0)
  }

  function NextAnswer(c: Callback, pc: Pc, step: Step, last: Option<bool>): Option<bool> {
    if step.Main? && pc == CallPc(c) then Some(step.answer) else last
  }

  /** The last answer the callback has given in the first `n` steps of a run. */
  ghost function LastAnswer(c: Callback, s: System, steps: seq<Step>, n: nat): Option<bool>
    requires ValidRun(s, steps) && n <= |steps|
  {
    if n == 0 then None
    else NextAnswer(c, StateAt(s, steps, n - 1).pc, steps[n - 1], LastAnswer(c, s, steps, n - 1))
  }

  lemma {:induction false} StateAtNext(s: System, steps: seq<Step>, n: nat)
    requires ValidRun(s, steps) && n < |steps|
    ensures Enabled(StateAt(s, steps, n), steps[n])
    ensures StateAt(s, steps, n + 1) == Apply(StateAt(s, steps, n), steps[n])
    decreases n
  {
    if n > 0 {
      StateAtNext(Apply(s, steps[0]), steps[1..], n - 1);
    }
  }

  /** Only a positive answer puts the main thread on the way to the goal. */
  lemma OnTheWayFrom(c: Callback, pc: Pc, m: AppMachine, answer: bool)
    requires Distance(c, Successor(pc, m, answer)) > 0
    ensures if pc == CallPc(c) then answer else Distance(c, pc) > 0
  {
  }

  /** Where no answer of the callback is being acted on; every run begins like that. */
  predicate Unanswered(c: Callback, s: System) { Distance(c, s.pc) == 0 }

  /** A thread on the way to the goal is there by a positive last answer. */
  predicate Justified(c: Callback, pc: Pc, last: Option<bool>) { Distance(c, pc) > 0 ==> last == Some(true) }

  lemma StepJustified(c: Callback, s: System, step: Step, last: Option<bool>)
    requires Justified(c, s.pc, last) && Enabled(s, step)
    ensures Justified(c, Apply(s, step).pc, NextAnswer(c, s.pc, step, last))
  {
    if step.Main? && Distance(c, Successor(s.pc, s.m, step.answer)) > 0 {
      OnTheWayFrom(c, s.pc, s.m, step.answer);
    }
  }

  lemma {:induction false} RunJustified(c: Callback, s: System, steps: seq<Step>, n: nat)
    requires Unanswered(c, s) && ValidRun(s, steps) && n <= |steps|
    ensures Justified(c, StateAt(s, steps, n).pc, LastAnswer(c, s, steps, n))
  {
    if n > 0 {
      RunJustified(c, s, steps, n - 1);
      StateAtNext(s, steps, n - 1);
      StepJustified(c, StateAt(s, steps, n - 1), steps[n - 1], LastAnswer(c, s, steps, n - 1));
    }
  }

  /** The transition to RUN, to FAIL or from DEACTIVATION to IDLE is made only after a positive last answer. */
  lemma ResultOnlyAfterYes(c: Callback, s: System, steps: seq<Step>, n: nat)
    requires Unanswered(c, s) && ValidRun(s, steps) && n <= |steps| && StateAt(s, steps, n).pc == Go(ResultOf(c))
    ensures LastAnswer(c, s, steps, n) == Some(true)
  {
    RunJustified(c, s, steps, n);
  }

  /** RUN and FAIL are entered only by their transitions, and IDLE from DEACTIVATION only by its own. */
  lemma EnteredByResult(c: Callback, s: System, step: Step)
    requires CoreInv(s) && Enabled(s, step) && Apply(s, step).m.state == GoalOf(c)
    requires if c == Ending then s.m.state == Deactivation else s.m.state != GoalOf(c)
    ensures s.pc == Go(ResultOf(c))
  {
    if s.pc.Go? {
      GoMoves(s.m, s.pc.e);
    }
  }

  lemma {:induction false} CoreInvAt(s: System, steps: seq<Step>, n: nat)
    requires CoreInv(s) && ValidRun(s, steps) && n <= |steps|
    ensures CoreInv(StateAt(s, steps, n))
  {
    if n > 0 {
      CoreInvAt(s, steps, n - 1);
      StateAtNext(s, steps, n - 1);
      StepKeepsCore(StateAt(s, steps, n - 1), steps[n - 1]);
    }
  }

  /** The state is entered at step `n`: RUN or FAIL, or IDLE from DEACTIVATION. */
  ghost predicate GoalEnteredAt(c: Callback, s: System, steps: seq<Step>, n: nat)
    requires ValidRun(s, steps)
  {
    && n < |steps| && StateAt(s, steps, n + 1).m.state == GoalOf(c)
    && if c == Ending then StateAt(s, steps, n).m.state == Deactivation else StateAt(s, steps, n).m.state != GoalOf(c)
  }

  lemma EnteredAfterYesFrom(c: Callback, s: System, steps: seq<Step>, n: nat)
    requires CoreInv(s) && Unanswered(c, s) && ValidRun(s, steps) && GoalEnteredAt(c, s, steps, n)
    ensures LastAnswer(c, s, steps, n) == Some(true)
  {
    CoreInvAt(s, steps, n);
    StateAtNext(s, steps, n);
    EnteredByResult(c, StateAt(s, steps, n), steps[n]);
    ResultOnlyAfterYes(c, s, steps, n);
  }

  /**
   In every run: RUN is entered only if the last check of the activation said yes,
   FAIL only if the last body of RUN failed, and IDLE from DEACTIVATION only if its
   last step was the final one. So after a no the state is not entered before
   another call.
   */
  lemma EnteredOnlyAfterYes(c: Callback, steps: seq<Step>, n: nat)
    requires ValidRun(START, steps) && GoalEnteredAt(c, START, steps, n)
    ensures LastAnswer(c, START, steps, n) == Some(true)
  {
    TableIsTarget(TABLE);
    EnteredAfterYesFrom(c, START, steps, n);
  }

  // -- After a positive answer

  /** The goal is reached, or the last step of a deactivation has found a quit request. */
  predicate Arrived(c: Callback, s: System) { s.m.state == GoalOf(c) || (c == Ending && s.pc == Go(QuitRequest)) }

  ghost predicate Arrives(c: Callback, s: System, steps: seq<Step>)
    requires ValidRun(s, steps)
    decreases |steps|
  {
    Arrived(c, s) || (steps != [] && Arrives(c, Apply(s, steps[0]), steps[1..]))
  }

  lemma StepTowardsGoal(c: Callback, s: System, step: Step)
    requires CoreInv(s) && Distance(c, s.pc) > 0 && Enabled(s, step)
    ensures var t := Apply(s, step);
      || (step.Main? && Arrived(c, t))
      || (Distance(c, t.pc) > 0 && Distance(c, t.pc) + (if step.Main? then 1 else 0) <= Distance(c, s.pc))
    ensures Enabled(s, Main(true))
  {
    if s.pc.Go? {
      GoMoves(s.m, s.pc.e);
    }
  }

  lemma {:induction false} WayToGoal(c: Callback, s: System, steps: seq<Step>)
    requires CoreInv(s) && Distance(c, s.pc) > 0 && ValidRun(s, steps)
    ensures Results.MainStepsIn(steps) >= Distance(c, s.pc) ==> Arrives(c, s, steps)
    decreases |steps|
  {
    if steps != [] {
      StepKeepsCore(s, steps[0]);
      StepTowardsGoal(c, s, steps[0]);
      if Distance(c, Apply(s, steps[0]).pc) > 0 {
        WayToGoal(c, Apply(s, steps[0]), steps[1..]);
      }
    }
  }

  /**
   After a positive answer the goal is reached, whatever requests arrive: RUN
   within three more statements of the main thread, FAIL within five, and IDLE
   within three unless a quit request is found first.
   */
  lemma YesReachesGoal(c: Callback, s: System, steps: seq<Step>)
    requires Reachable(s) && s.pc == CallPc(c) && ValidRun(MainStep(s, true), steps)
    requires Results.MainStepsIn(steps) >= (if c == Body then 5 else 3)
    ensures Arrives(c, MainStep(s, true), steps)
  {
    ReachableInv(s);
    StepKeepsCore(s, Main(true));
    WayToGoal(c, MainStep(s, true), steps);
  }

  // ---------------------------------------------------------------------
  // What the monitor publishes
  // ---------------------------------------------------------------------

  /** The monitor's readings: the current state, then the desired one. */
  datatype Readings = Readings(current: Option<AppState>, desired: Option<AppState>)

  function NextReadings(s: System, step: Step, last: Readings): Readings {
    if step == Watch && s.monitor.ReadState? then last.(current := Some(s.m.state))
    else if step == Watch && s.monitor.ReadDesired? then last.(desired := s.m.desired)
    else last
  }

  /** What the machine held when the monitor last read it in the first `n` steps of a run. */
  ghost function LastReadings(s: System, steps: seq<Step>, n: nat): Readings
    requires ValidRun(s, steps) && n <= |steps|
  {
    if n == 0 then Readings(None, None)
    else NextReadings(StateAt(s, steps, n - 1), steps[n - 1], LastReadings(s, steps, n - 1))
  }

  /** The monitor holds what it read. */
  predicate Truthful(monitor: Monitor, last: Readings) {
    && (monitor.ReadDesired? || monitor.Publish? || monitor.TestQuit? ==> last.current == Some(monitor.current))
    && (monitor.Publish? || monitor.TestQuit? ==> last.desired == Some(monitor.desired))
  }

  lemma StepKeepsTruth(s: System, step: Step, last: Readings)
    requires CoreInv(s) && Enabled(s, step) && Truthful(s.monitor, last)
    ensures Truthful(Apply(s, step).monitor, NextReadings(s, step, last))
    ensures Apply(s, step).published == s.published +
              if step == Watch && s.monitor.Publish? then [(last.current.value, last.desired.value)] else []
  {
  }

  lemma {:induction false} MonitorIsTruthful(s: System, steps: seq<Step>, n: nat)
    requires CoreInv(s) && Truthful(s.monitor, Readings(None, None)) && ValidRun(s, steps) && n <= |steps|
    ensures Truthful(StateAt(s, steps, n).monitor, LastReadings(s, steps, n))
  {
    if n > 0 {
      MonitorIsTruthful(s, steps, n - 1);
      CoreInvAt(s, steps, n - 1);
      StateAtNext(s, steps, n - 1);
      StepKeepsTruth(StateAt(s, steps, n - 1), steps[n - 1], LastReadings(s, steps, n - 1));
    }
  }

  /**
   In every run: what is published is the current and the desired state as the
   machine held them when the monitor last read each, published once per pass and
   by nobody else.
   */
  lemma PublishesWhatItRead(steps: seq<Step>, n: nat)
    requires ValidRun(START, steps) && n < |steps|
    ensures var s, last := StateAt(START, steps, n), LastReadings(START, steps, n);
      if steps[n] == Watch && s.monitor.Publish?
      then last.current.Some? && last.desired.Some?
        && StateAt(START, steps, n + 1).published == s.published + [(last.current.value, last.desired.value)]
      else StateAt(START, steps, n + 1).published == s.published
  {
    TableIsTarget(TABLE);
    MonitorIsTruthful(START, steps, n);
    CoreInvAt(START, steps, n);
    StateAtNext(START, steps, n);
    StepKeepsTruth(StateAt(START, steps, n), steps[n], LastReadings(START, steps, n));
  }
}
