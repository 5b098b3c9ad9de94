/**
 The life cycle when `raiseEvent` and `nextState` are not atomic, as written:
 `raiseEvent` looks its row up outside the mutex, stores the desired state, and
 raises the flag, in three steps; a transition by a request lowers the flag in
 one step and stores the new state in a later one. Any number of raises run at
 once.
 */
module LifecycleSplit {
  import opened Options
  import opened StateMachines
  import opened AppStateMachine
  import opened AppLifecycle
  import Results = LifecycleResults

  /** A raise that has found a row. */
  datatype Raising = Raising(event: AppEvent, target: Option<AppState>, stored: bool)

  /** `consumed`: the main thread is between lowering the flag and storing the new state. */
  datatype Split = Split(base: System, consumed: bool, inFlight: map<nat, Raising>)

  datatype SplitStep =
    | Plain(answer: bool) | Observe | Lower | Move
    | Lookup(id: nat, e: AppEvent) | StoreDesired(id: nat) | StoreFlag(id: nat)

  predicate AtRequest(pc: Pc) { pc.Go? && IsAsync(pc.e) }

  predicate SplitEnabled(s: Split, step: SplitStep) {
    match step
    case Plain(answer) => MainEnabled(s.base) && !AtRequest(s.base.pc)
    case Observe => Enabled(s.base, Watch)
    case Lower => AtRequest(s.base.pc) && !s.consumed
    case Move => AtRequest(s.base.pc) && s.consumed
    case Lookup(id, e) => IsAsync(e) && id !in s.inFlight
    case StoreDesired(id) => id in s.inFlight && !s.inFlight[id].stored
    case StoreFlag(id) => id in s.inFlight && s.inFlight[id].stored
  }

  function WithMachine(s: System, m: AppMachine): System { s.(m := m) }

  function SplitApply(s: Split, step: SplitStep): Split
    requires SplitEnabled(s, step)
  {
    match step
    case Plain(answer) => s.(base := MainStep(s.base, answer))
    case Observe => s.(base := WatchStep(s.base))
    case Lower => s.(base := WithMachine(s.base, Consume(s.base.m, s.base.pc.e)), consumed := true)
    case Move => s.(base := WithMachine(s.base, Next(s.base.m, s.base.pc.e)).(pc := LoopTest), consumed := false)
    case Lookup(id, e) =>
      var m := s.base.m;
      if (m.state, e) in m.table then s.(inFlight := s.inFlight[id := Raising(e, m.table[(m.state, e)], false)]) else s
    case StoreDesired(id) =>
      var raising := s.inFlight[id];
      s.(base := WithMachine(s.base, s.base.m.(desired := raising.target)),
          inFlight := s.inFlight[id := raising.(stored := true)])
    case StoreFlag(id) =>
      s.(base := WithMachine(s.base, s.base.m.(raised := s.base.m.raised + {s.inFlight[id].event})),
          inFlight := s.inFlight - {id})
  }

  const SPLIT_START: Split := Split(START, false, map[])

  ghost predicate SplitRun(s: Split, steps: seq<SplitStep>)
    decreases |steps|
  {
    steps == [] || (SplitEnabled(s, steps[0]) && SplitRun(SplitApply(s, steps[0]), steps[1..]))
  }

  ghost function SplitAfter(s: Split, steps: seq<SplitStep>): Split
    requires SplitRun(s, steps)
    decreases |steps|
  {
    if steps == [] then s else SplitAfter(SplitApply(s, steps[0]), steps[1..])
  }

  // ---------------------------------------------------------------------
  // What survives any interleaving
  // ---------------------------------------------------------------------

  /** The system with a flag that is lowered for a transition still counted as raised. */
  function Restored(s: Split): System {
    if s.consumed && s.base.pc.Go?
    then WithMachine(s.base, s.base.m.(raised := s.base.m.raised + {s.base.pc.e})) else s.base
  }

  ghost predicate SplitCore(s: Split) {
    && CoreInv(Restored(s))
    && (s.consumed ==> AtRequest(s.base.pc))
    && (forall id :: id in s.inFlight ==> IsAsync(s.inFlight[id].event) && s.inFlight[id].target.Some?)
  }

  lemma LowerKeepsCore(s: Split)
    requires SplitCore(s) && SplitEnabled(s, Lower)
    ensures Restored(SplitApply(s, Lower)) == Restored(s) && SplitCore(SplitApply(s, Lower))
  {
  }

  lemma MoveKeepsCore(s: Split)
    requires SplitCore(s) && SplitEnabled(s, Move)
    ensures SplitCore(SplitApply(s, Move))
    ensures FlagsOnlyUp(MainStep(Restored(s), true).m, SplitApply(s, Move).base.m)
  {
    var r, e := Restored(s), s.base.pc.e;
    StepKeepsCore(r, Main(true));
    GoMoves(r.m, e);
    assert (s.base.m.state, e) in s.base.m.table;
    RequestKeepsCore(MainStep(r, true), Next(s.base.m, e));
    assert SplitApply(s, Move).base == MainStep(r, true).(m := Next(s.base.m, e));
  }

  lemma StoreKeepsCore(s: Split, step: SplitStep)
    requires SplitCore(s) && SplitEnabled(s, step) && (step.StoreDesired? || step.StoreFlag?)
    ensures SplitCore(SplitApply(s, step))
  {
  }

  lemma LookupKeepsCore(s: Split, id: nat, e: AppEvent)
    requires SplitCore(s) && SplitEnabled(s, Lookup(id, e))
    ensures SplitCore(SplitApply(s, Lookup(id, e)))
    ensures SplitApply(s, Lookup(id, e)).base == s.base
  {
  }

  lemma ObserveKeepsCore(s: Split)
    requires SplitCore(s) && SplitEnabled(s, Observe)
    ensures SplitCore(SplitApply(s, Observe))
  {
  }

  lemma SplitStepKeepsCore(s: Split, step: SplitStep)
    requires SplitCore(s) && SplitEnabled(s, step)
    ensures SplitCore(SplitApply(s, step))
  {
    match step
    case Plain(answer) => StepKeepsCore(s.base, Main(answer));
    case Observe => ObserveKeepsCore(s);
    case Lower => LowerKeepsCore(s);
    case Move => MoveKeepsCore(s);
    case Lookup(id, e) => LookupKeepsCore(s, id, e);
    case StoreDesired(id) => StoreKeepsCore(s, step);
    case StoreFlag(id) => StoreKeepsCore(s, step);
  }

  lemma {:induction false} SplitRunKeepsCore(s: Split, steps: seq<SplitStep>)
    requires SplitCore(s) && SplitRun(s, steps)
    ensures SplitCore(SplitAfter(s, steps))
    decreases |steps|
  {
    if steps != [] {
      SplitStepKeepsCore(s, steps[0]);
      SplitRunKeepsCore(SplitApply(s, steps[0]), steps[1..]);
    }
  }

  lemma StartFits()
    ensures SplitCore(SPLIT_START) && Inv(START)
  {
    TableIsTarget(TABLE);
  }

  /**
   The races never corrupt the machine: after any run every transition about to
   be stored still has its row, nothing is null, a transition by a request
   consumes a request really raised, and the machine has stopped only if the
   monitor published "quit" for both states.
   */
  lemma RacesAreSafe(steps: seq<SplitStep>)
    requires SplitRun(SPLIT_START, steps)
    ensures var s := SplitAfter(SPLIT_START, steps);
      && s.base.m.table == TABLE
      && (s.base.pc.Go? ==> HasRow(s.base.m, s.base.pc.e))
      && (s.base.pc.Go? && IsAsync(s.base.pc.e) && !s.consumed ==> s.base.pc.e in s.base.m.raised)
      && s.base.m.desired.Some? && !s.base.flags.crashed
      && (s.base.m.quit ==> s.base.m.state == Quit && (Quit, Quit) in s.base.published)
  {
    StartFits();
    SplitRunKeepsCore(SPLIT_START, steps);
    TableIsTarget(SplitAfter(SPLIT_START, steps).base.m.table);
  }

  // ---------------------------------------------------------------------
  // What needs raises and transitions to exclude each other
  // ---------------------------------------------------------------------

  /** The step does not let a raise and a transition overlap. */
  predicate Exclusive(s: Split, step: SplitStep) {
    match step
    case Lower => s.inFlight == map[]
    case Plain(_) => s.base.pc.Go? ==> s.inFlight == map[]
    case Lookup(_, _) => !s.consumed
    case _ => true
  }

  ghost predicate ExclusiveRun(s: Split, steps: seq<SplitStep>)
    requires SplitRun(s, steps)
    decreases |steps|
  {
    steps == [] || (Exclusive(s, steps[0]) && ExclusiveRun(SplitApply(s, steps[0]), steps[1..]))
  }

  ghost function EventsOf(inFlight: map<nat, Raising>): set<AppEvent> { set id | id in inFlight :: inFlight[id].event }

  /** The machine once every raise in flight has raised its flag. */
  ghost function Settled(m: AppMachine, inFlight: map<nat, Raising>): AppMachine {
    m.(raised := m.raised + EventsOf(inFlight))
  }

  /** The flags and the desired state fit the state, counting the raises in flight, and those aim at the current
      state's rows. */
  ghost predicate PendingFit(m: AppMachine, inFlight: map<nat, Raising>) {
    && HasTargets(m.table)
    && RequestsFit(Settled(m, inFlight)) && DesiredFits(Settled(m, inFlight))
    && (forall id :: id in inFlight ==> inFlight[id].target == Target(m.state, inFlight[id].event))
  }

  ghost predicate SplitInv(s: Split) {
    && SplitCore(s)
    && (s.consumed ==> s.inFlight == map[] && s.base.pc.e !in s.base.m.raised && Inv(Restored(s)))
    && (!s.consumed ==> PendingFit(s.base.m, s.inFlight))
  }

  lemma NothingInFlight(m: AppMachine)
    ensures Settled(m, map[]) == m
  {
  }

  lemma LookupKeepsPending(m: AppMachine, inFlight: map<nat, Raising>, id: nat, e: AppEvent)
    requires PendingFit(m, inFlight) && IsAsync(e) && id !in inFlight && (m.state, e) in m.table
    ensures PendingFit(m, inFlight[id := Raising(e, m.table[(m.state, e)], false)])
  {
    var more := inFlight[id := Raising(e, m.table[(m.state, e)], false)];
    assert EventsOf(more) == EventsOf(inFlight) + {e} by {
      forall x | x in EventsOf(inFlight) ensures x in EventsOf(more) {
        var i :| i in inFlight && inFlight[i].event == x;
        assert i in more && more[i].event == x;
      }
      assert id in more && more[id].event == e;
    }
    assert Target(m.state, e) == m.table[(m.state, e)];
  }

  lemma StoreDesiredKeepsPending(m: AppMachine, inFlight: map<nat, Raising>, id: nat)
    requires PendingFit(m, inFlight) && id in inFlight && inFlight[id].target.Some?
    ensures PendingFit(m.(desired := inFlight[id].target), inFlight[id := inFlight[id].(stored := true)])
  {
    var r := inFlight[id];
    var after := inFlight[id := r.(stored := true)];
    assert EventsOf(after) == EventsOf(inFlight) by {
      forall x | x in EventsOf(inFlight) ensures x in EventsOf(after) {
        var i :| i in inFlight && inFlight[i].event == x;
        assert i in after && after[i].event == x;
      }
    }
    var n := Settled(m.(desired := r.target), after);
    assert r.event in EventsOf(after);
    assert r.event in n.raised && Target(n.state, r.event) == n.desired;
  }

  lemma StoreFlagKeepsPending(m: AppMachine, inFlight: map<nat, Raising>, id: nat)
    requires PendingFit(m, inFlight) && id in inFlight
    ensures PendingFit(m.(raised := m.raised + {inFlight[id].event}), inFlight - {id})
  {
    var e := inFlight[id].event;
    var after := inFlight - {id};
    assert e in EventsOf(inFlight);
    assert m.raised + {e} + EventsOf(after) == m.raised + EventsOf(inFlight) by {
      forall x | x in EventsOf(inFlight) ensures x == e || x in EventsOf(after) {
        var i :| i in inFlight && inFlight[i].event == x;
        assert i == id || (i in after && after[i].event == x);
      }
      forall x | x in EventsOf(after) ensures x in EventsOf(inFlight) {
        var i :| i in after && after[i].event == x;
        assert i in inFlight;
      }
    }
    assert Settled(m.(raised := m.raised + {e}), after) == Settled(m, inFlight);
  }

  /** With the flag lowered and nothing in flight, the second half completes exactly the atomic transition. */
  lemma MoveIsAtomic(s: Split)
    requires SplitInv(s) && SplitEnabled(s, Move)
    ensures SplitApply(s, Move).base == MainStep(Restored(s), true)
  {
    var e, raised := s.base.pc.e, s.base.m.raised;
    assert (raised + {e}) - {e} == raised;
    GoMoves(Restored(s).m, e);
    assert (s.base.m.state, e) in s.base.m.table;
  }

  /** A raise whose three accesses follow one another is exactly the atomic raise, recorded or refused. */
  lemma RaiseIsAtomic(s: Split, id: nat, e: AppEvent)
    requires SplitEnabled(s, Lookup(id, e))
    ensures var found := SplitApply(s, Lookup(id, e));
      if (s.base.m.state, e) !in s.base.m.table then found == s.(base := AppLifecycle.Apply(s.base, Request(e)))
      else
        SplitEnabled(found, StoreDesired(id))
        && var stored := SplitApply(found, StoreDesired(id));
           SplitEnabled(stored, StoreFlag(id))
           && SplitApply(stored, StoreFlag(id)) == s.(base := AppLifecycle.Apply(s.base, Request(e)))
  {
    if (s.base.m.state, e) in s.base.m.table {
      var found := SplitApply(s, Lookup(id, e));
      var stored := SplitApply(found, StoreDesired(id));
      assert stored.inFlight - {id} == s.inFlight;
    }
  }

  lemma PlainKeepsPending(s: Split, answer: bool)
    requires SplitInv(s) && SplitEnabled(s, Plain(answer)) && Exclusive(s, Plain(answer)) && !s.consumed
    ensures PendingFit(MainStep(s.base, answer).m, s.inFlight)
  {
  }

  lemma ObserveKeepsRest(s: Split)
    requires SplitInv(s) && SplitEnabled(s, Observe)
    ensures SplitInv(SplitApply(s, Observe))
  {
  }

  lemma ExclusiveStepKeepsInv(s: Split, step: SplitStep)
    requires SplitInv(s) && SplitEnabled(s, step) && Exclusive(s, step)
    ensures SplitInv(SplitApply(s, step))
  {
    SplitStepKeepsCore(s, step);
    match step
    case Plain(answer) => PlainKeepsPending(s, answer);
    case Observe => ObserveKeepsRest(s);
    case Lower => NothingInFlight(s.base.m); LowerKeepsCore(s);
    case Move =>
      MoveIsAtomic(s);
      StepKeepsInv(Restored(s), Main(true));
      NothingInFlight(SplitApply(s, Move).base.m);
    case Lookup(id, e) => if (s.base.m.state, e) in s.base.m.table { LookupKeepsPending(s.base.m, s.inFlight, id, e); }
    case StoreDesired(id) => StoreDesiredKeepsPending(s.base.m, s.inFlight, id);
    case StoreFlag(id) => StoreFlagKeepsPending(s.base.m, s.inFlight, id);
  }

  lemma {:induction false} ExclusiveRunKeepsInv(s: Split, steps: seq<SplitStep>)
    requires SplitInv(s) && SplitRun(s, steps) && ExclusiveRun(s, steps)
    ensures SplitInv(SplitAfter(s, steps))
    decreases |steps|
  {
    if steps != [] {
      ExclusiveStepKeepsInv(s, steps[0]);
      ExclusiveRunKeepsInv(SplitApply(s, steps[0]), steps[1..]);
    }
  }

  lemma ExclusiveAfter(past: seq<SplitStep>, s: Split)
    requires SplitRun(SPLIT_START, past) && ExclusiveRun(SPLIT_START, past) && s == SplitAfter(SPLIT_START, past)
    ensures SplitInv(s)
  {
    StartFits();
    NothingInFlight(START.m);
    ExclusiveRunKeepsInv(SPLIT_START, past);
  }

  /**
   If no raise overlaps a transition, which holding one mutex across each of the
   two would ensure, then whenever none is in progress the atomic model's whole
   invariant holds, with all its consequences.
   */
  lemma ExclusionSuffices(steps: seq<SplitStep>)
    requires SplitRun(SPLIT_START, steps) && ExclusiveRun(SPLIT_START, steps)
    ensures var s := SplitAfter(SPLIT_START, steps); s.inFlight == map[] && !s.consumed ==> Inv(s.base)
  {
    var s := SplitAfter(SPLIT_START, steps);
    ExclusiveAfter(steps, s);
    NothingInFlight(s.base.m);
  }

  // ---------------------------------------------------------------------
  // When the quit handshake completes
  // ---------------------------------------------------------------------

  /** The monitor has released the main thread or has read "quit" twice in this pass. */
  predicate AboutToRelease(monitor: Monitor) {
    match monitor
    case Publish(current, desired) => current == Quit && desired == Quit
    case TestQuit(current, desired) => current == Quit && desired == Quit
    case Ended => true
    case _ => false
  }

  function Distance(s: Split): nat { Results.ReleaseDistance(s.base.monitor) }

  predicate WillRelease(s: Split) { s.base.m.desired == Some(Quit) || AboutToRelease(s.base.monitor) }

  ghost predicate Waiting(s: Split) { SplitCore(s) && s.base.flags.shouldQuit && s.inFlight == map[] }

  /** In QUIT no raise finds a row, so nothing touches the desired state, and the monitor alone decides. */
  lemma WaitingStep(s: Split, step: SplitStep)
    requires Waiting(s) && SplitEnabled(s, step)
    ensures var t := SplitApply(s, step);
      && Waiting(t) && t.base.m.desired == s.base.m.desired && WillRelease(t) == WillRelease(s)
      && (WillRelease(s) ==> Distance(t) + (if step.Observe? then 1 else 0) <= Distance(s))
  {
    SplitStepKeepsCore(s, step);
    if step.Lookup? {
      assert Target(Quit, step.e).None?;
      assert (s.base.m.state, step.e) !in s.base.m.table;
    }
  }

  ghost function ObservationsIn(steps: seq<SplitStep>): nat {
    if steps == [] then 0 else (if steps[0].Observe? then 1 else 0) + ObservationsIn(steps[1..])
  }

  lemma {:induction false} WaitingRun(s: Split, steps: seq<SplitStep>)
    requires Waiting(s) && SplitRun(s, steps)
    ensures var t := SplitAfter(s, steps);
      && Waiting(t) && WillRelease(t) == WillRelease(s)
      && (WillRelease(s) ==> Distance(t) + ObservationsIn(steps) <= Distance(s))
    decreases |steps|
  {
    if steps != [] {
      WaitingStep(s, steps[0]);
      WaitingRun(SplitApply(s, steps[0]), steps[1..]);
    }
  }

  lemma CanDieMeansEnded(s: Split)
    requires Waiting(s)
    ensures s.base.flags.canDie <==> s.base.monitor == Ended
    ensures s.base.monitor == Ended <==> Distance(s) == 0
    ensures !s.base.m.quit || s.base.flags.canDie
  {
  }

  ghost predicate SplitReachable(s: Split) {
    exists past: seq<SplitStep> :: SplitRun(SPLIT_START, past) && s == SplitAfter(SPLIT_START, past)
  }

  lemma SplitReachableCore(s: Split)
    requires SplitReachable(s)
    ensures SplitCore(s)
  {
    StartFits();
    var past :| SplitRun(SPLIT_START, past) && s == SplitAfter(SPLIT_START, past);
    SplitRunKeepsCore(SPLIT_START, past);
  }

  /**
   Without atomicity the handshake completes exactly when no stale raise has
   overwritten the desired state: once the application waits in QUIT and no raise
   is in flight, eight monitor steps release it if the desired state is "quit" or
   the monitor has already read it so; otherwise no continuation ever does.
   */
  lemma HandshakeCompletesIff(s: Split, steps: seq<SplitStep>)
    requires SplitReachable(s) && s.base.flags.shouldQuit && s.inFlight == map[] && SplitRun(s, steps)
    ensures var t := SplitAfter(s, steps);
      && (ObservationsIn(steps) >= 8 ==> (t.base.flags.canDie <==> WillRelease(s)))
      && (!WillRelease(s) ==> !t.base.flags.canDie && !t.base.m.quit)
  {
    SplitReachableCore(s);
    WaitingRun(s, steps);
    CanDieMeansEnded(SplitAfter(s, steps));
  }

  /** Nothing is in flight in QUIT if raises and transitions exclude each other, and the desired state is "quit". */
  lemma ExclusiveWaitIsClean(s: Split)
    requires SplitInv(s) && s.base.flags.shouldQuit
    ensures s.base.m.state == Quit && s.inFlight == map[] && s.base.m.desired == Some(Quit)
  {
    assert forall e :: Target(Quit, e) == None;
    assert s.inFlight.Keys == {};
    NothingInFlight(s.base.m);
  }

  ghost predicate ExclusiveReachable(s: Split) {
    exists past: seq<SplitStep> ::
      SplitRun(SPLIT_START, past) && ExclusiveRun(SPLIT_START, past) && s == SplitAfter(SPLIT_START, past)
  }

  /** The handshake completes if raises and transitions exclude each other until the application waits in QUIT. */
  lemma ExclusiveHandshakeCompletes(s: Split, steps: seq<SplitStep>)
    requires ExclusiveReachable(s) && s.base.flags.shouldQuit && SplitRun(s, steps)
    ensures WillRelease(s) && (ObservationsIn(steps) >= 8 ==> SplitAfter(s, steps).base.flags.canDie)
  {
    var past :| SplitRun(SPLIT_START, past) && ExclusiveRun(SPLIT_START, past) && s == SplitAfter(SPLIT_START, past);
    ExclusiveAfter(past, s);
    ExclusiveWaitIsClean(s);
    HandshakeCompletesIff(s, steps);
  }

  // -- A run in which the handshake never completes

  lemma Prepend(s: Split, step: SplitStep, rest: seq<SplitStep>) returns (steps: seq<SplitStep>)
    requires SplitEnabled(s, step) && SplitRun(SplitApply(s, step), rest)
    ensures SplitRun(s, steps) && SplitAfter(s, steps) == SplitAfter(SplitApply(s, step), rest)
  {
    steps := [step] + rest;
    assert steps[1..] == rest;
  }

  /** Waiting in QUIT with the desired state overwritten and the monitor at the start of a pass. */
  predicate Hung(s: Split) {
    s.base.flags.shouldQuit && s.inFlight == map[] && s.base.m.desired == Some(Activation)
        && s.base.monitor == ReadState
  }

  const STALE := Raising(ActivationRequest, Some(Activation), false)

  lemma HangFromWait(s: Split) returns (steps: seq<SplitStep>)
    requires s.base.flags.shouldQuit && s.inFlight == map[0 := STALE] && s.base.monitor == ReadState
    ensures SplitRun(s, steps) && Hung(SplitAfter(s, steps))
  {
    var t := SplitApply(s, StoreDesired(0));
    var u := SplitApply(t, StoreFlag(0));
    assert u.inFlight == map[];
    steps := Prepend(t, StoreFlag(0), []);
    steps := Prepend(s, StoreDesired(0), steps);
  }

  lemma HangFromQuit(s: Split) returns (steps: seq<SplitStep>)
    requires s.base.pc == LoopTest && s.base.m.state == Quit && !s.base.m.quit
    requires s.inFlight == map[0 := STALE] && s.base.monitor == ReadState
    ensures SplitRun(s, steps) && Hung(SplitAfter(s, steps))
  {
    var t := SplitApply(s, Plain(true));
    steps := HangFromWait(SplitApply(t, Plain(true)));
    steps := Prepend(t, Plain(true), steps);
    steps := Prepend(s, Plain(true), steps);
  }

  lemma HangFromTransition(s: Split) returns (steps: seq<SplitStep>)
    requires s.base.pc == Go(QuitRequest) && s.base.m.state == Idle && !s.consumed && !s.base.m.quit
        && HasTargets(s.base.m.table)
    requires s.inFlight == map[0 := STALE] && s.base.monitor == ReadState
    ensures SplitRun(s, steps) && Hung(SplitAfter(s, steps))
  {
    var t := SplitApply(s, Lower);
    assert (Idle, QuitRequest) in t.base.m.table;
    steps := HangFromQuit(SplitApply(t, Move));
    steps := Prepend(t, Move, steps);
    steps := Prepend(s, Lower, steps);
  }

  lemma HangFromIdle(s: Split) returns (steps: seq<SplitStep>)
    requires s.base.pc == IdleWait && s.base.m.state == Idle && !s.consumed && !s.base.m.quit
        && HasTargets(s.base.m.table)
    requires s.base.m.raised == {QuitRequest} && s.inFlight == map[0 := STALE] && s.base.monitor == ReadState
    ensures SplitRun(s, steps) && Hung(SplitAfter(s, steps))
  {
    var t := SplitApply(s, Plain(true));
    var u := SplitApply(t, Plain(true));
    steps := HangFromTransition(SplitApply(u, Plain(true)));
    steps := Prepend(u, Plain(true), steps);
    steps := Prepend(t, Plain(true), steps);
    steps := Prepend(s, Plain(true), steps);
  }

  lemma HangFromStale(s: Split) returns (steps: seq<SplitStep>)
    requires s.base.pc == IdleWait && s.base.m.state == Idle && !s.consumed && !s.base.m.quit
        && HasTargets(s.base.m.table)
    requires s.base.m.raised == {} && s.inFlight == map[0 := STALE] && s.base.monitor == ReadState
    ensures SplitRun(s, steps) && Hung(SplitAfter(s, steps))
  {
    assert (Idle, QuitRequest) in s.base.m.table;
    var t := SplitApply(s, Lookup(1, QuitRequest));
    var u := SplitApply(t, StoreDesired(1));
    var v := SplitApply(u, StoreFlag(1));
    assert v.inFlight == map[0 := STALE];
    steps := HangFromIdle(v);
    steps := Prepend(u, StoreFlag(1), steps);
    steps := Prepend(t, StoreDesired(1), steps);
    steps := Prepend(s, Lookup(1, QuitRequest), steps);
  }

  lemma HangFromStart(s: Split) returns (steps: seq<SplitStep>)
    requires s.base.pc == StartMonitoring && s.base.m.state == Initialization && !s.consumed && !s.base.m.quit
    requires HasTargets(s.base.m.table) && s.base.m.raised == {} && s.inFlight == map[]
    requires !s.base.flags.shouldQuit
    ensures SplitRun(s, steps) && Hung(SplitAfter(s, steps))
  {
    var t := SplitApply(s, Plain(true));
    GoMoves(t.base.m, Initialized);
    var u := SplitApply(t, Plain(true));
    var v := SplitApply(u, Plain(true));
    assert (Idle, ActivationRequest) in v.base.m.table;
    steps := HangFromStale(SplitApply(v, Lookup(0, ActivationRequest)));
    steps := Prepend(v, Lookup(0, ActivationRequest), steps);
    steps := Prepend(u, Plain(true), steps);
    steps := Prepend(t, Plain(true), steps);
    steps := Prepend(s, Plain(true), steps);
  }

  lemma HungForever(s: Split)
    requires SplitReachable(s) && Hung(s)
    ensures s.base.m.state == Quit
    ensures forall steps :: SplitRun(s, steps) ==>
        !SplitAfter(s, steps).base.flags.canDie && !SplitAfter(s, steps).base.m.quit
  {
    SplitReachableCore(s);
    forall steps | SplitRun(s, steps)
      ensures !SplitAfter(s, steps).base.flags.canDie && !SplitAfter(s, steps).base.m.quit
    {
      HandshakeCompletesIff(s, steps);
    }
  }

  lemma HungIsReachable() returns (s: Split)
    ensures SplitReachable(s) && Hung(s)
  {
    StartFits();
    var past := HangFromStart(SPLIT_START);
    s := SplitAfter(SPLIT_START, past);
  }

  /**
   The failure is real: an activation request looked up in IDLE and stored after
   a quit request has moved the machine to QUIT leaves it waiting there for ever.
   */
  lemma HandshakeCanHang() returns (s: Split)
    ensures SplitReachable(s) && s.base.m.state == Quit
    ensures forall steps :: SplitRun(s, steps) ==>
        !SplitAfter(s, steps).base.flags.canDie && !SplitAfter(s, steps).base.m.quit
  {
    s := HungIsReachable();
    HungForever(s);
  }
}
