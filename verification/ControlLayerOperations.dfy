/**
 What the control layer's operations do: in every run a load, an unload and a
 close that return have done their work or met a reason not to; and by itself each
 does exactly what its caller expects.
 */
module ControlLayerOperations {
  import opened Options
  import opened ControlLayer
  import opened ControlLayerResults

  /** The layer before step `i` of a run. */
  ghost function StateAt(s: Layer, steps: seq<Step>, i: nat): Layer
    requires ValidRun(s, steps) && i <= |steps|
    decreases i
  {
    if i == 0 then s else StateAt(Apply(s, steps[0]), steps[1..], i - 1)
  }

  /** The rest of a run is a run of its own. */
  lemma Shift(s: Layer, steps: seq<Step>, k: nat)
    requires ValidRun(s, steps) && k + 1 <= |steps|
    ensures StateAt(s, steps, k + 1) == StateAt(Apply(s, steps[0]), steps[1..], k)
    ensures After(s, steps) == After(Apply(s, steps[0]), steps[1..])
    ensures k + 1 < |steps| ==> steps[k + 1] == steps[1..][k]
  {
  }

  /** What goes on at the start of a run and no longer at its end is ended by one of the steps. */
  lemma {:induction false} LastDuring(s: Layer, steps: seq<Step>, during: Layer -> bool, ends: (Layer, Step) -> bool)
    returns (k: nat)
    requires ValidRun(s, steps) && during(s) && !during(After(s, steps))
    requires forall x, step :: during(x) && Enabled(x, step) ==> during(Apply(x, step)) || ends(x, step)
    ensures k < |steps| && during(StateAt(s, steps, k)) && ends(StateAt(s, steps, k), steps[k])
    decreases |steps|
  {
    var n := Apply(s, steps[0]);
    if during(n) {
      k := LastDuring(n, steps[1..], during, ends);
      Shift(s, steps, k);
      k := k + 1;
    } else {
      k := 0;
    }
  }

  lemma {:induction false} Rest(s: Layer, steps: seq<Step>, k: nat)
    requires ValidRun(s, steps) && k <= |steps|
    ensures ValidRun(StateAt(s, steps, k), steps[k..])
    ensures After(StateAt(s, steps, k), steps[k..]) == After(s, steps)
    decreases k
  {
    if k > 0 {
      Rest(Apply(s, steps[0]), steps[1..], k - 1);
      assert steps[1..][k - 1..] == steps[k..];
    } else {
      assert steps[0..] == steps;
    }
  }

  /** A thread moves only by its own steps. */
  lemma OthersLeaveIt(s: Layer, step: Step, t: Tid)
    requires Enabled(s, step) && step.t != t
    ensures PcOf(Apply(s, step), t) == PcOf(s, t)
  {
  }

  lemma HistoryGrows(s: Layer, step: Step)
    requires Enabled(s, step)
    ensures Apply(s, step).history.created >= s.history.created
    ensures forall e :: e in s.history.stopCalls ==> e in Apply(s, step).history.stopCalls
    ensures forall e :: e in s.history.dropped ==> e in Apply(s, step).history.dropped
  {
  }

  lemma {:induction false} HistoryGrowsAlong(s: Layer, steps: seq<Step>)
    requires ValidRun(s, steps)
    ensures forall e :: e in s.history.stopCalls ==> e in After(s, steps).history.stopCalls
    ensures forall e :: e in s.history.dropped ==> e in After(s, steps).history.dropped
    decreases |steps|
  {
    if steps != [] {
      HistoryGrows(s, steps[0]);
      HistoryGrowsAlong(Apply(s, steps[0]), steps[1..]);
    }
  }

  /** Every entry has a place. */
  ghost predicate Sound(s: Layer) { exists place :: Inv(s, place) }

  lemma StepKeepsSound(s: Layer, step: Step)
    requires Sound(s) && Enabled(s, step)
    ensures Sound(Apply(s, step))
  {
    var place :| Inv(s, place);
    var after := StepKeepsInv(s, place, step);
  }

  lemma ReachableSound(s: Layer)
    requires Reachable(s)
    ensures Sound(s)
  {
    var place := ReachableInv(s);
  }

  // ---------------------------------------------------------------------
  // A load, in every run
  // ---------------------------------------------------------------------

  /** The thread is in the middle of this load; its entry is younger than the load and of the kind asked for. */
  predicate InLoad(s: Layer, t: Tid, call: Call, since: nat) {
    && s.history.created >= since
    && match PcOf(s, t)
       case LoadLock(x) => x == call
       case LoadCheck(x) => x == call
       case LoadMapLock(x) => x == call
       case LoadFind(x) => x == call
       case LoadCreate(x) => x == call
       case LoadMapRelock(x, e) => x == call && e.external == call.external && e.id >= since
       case LoadEmplace(x, e) => x == call && e.external == call.external && e.id >= since
       case _ => false
  }

  /** The step ends the load: the layer is closing, the name taken, the process not started, or the entry mapped. */
  predicate EndsLoad(s: Layer, step: Step, t: Tid, call: Call, since: nat)
    requires Enabled(s, step)
  {
    var pc := PcOf(s, t);
    || (step == Run(t) && pc == LoadCheck(call) && s.closing)
    || (step == Run(t) && pc == LoadFind(call) && call.slot in s.table)
    || (step == Fail(t) && pc == LoadCreate(call) && !call.external)
    || (step == Run(t) && pc.LoadEmplace? && pc.call == call && pc.entry.external == call.external
        && pc.entry.id >= since && call.slot !in s.table && Apply(s, step).table == s.table[call.slot := pc.entry])
  }

  lemma StepOfLoad(s: Layer, step: Step, t: Tid, call: Call, since: nat)
    requires Sound(s) && Enabled(s, step) && InLoad(s, t, call, since)
    ensures InLoad(Apply(s, step), t, call, since) || EndsLoad(s, step, t, call, since)
  {
    if step.t != t {
      OthersLeaveIt(s, step, t);
      HistoryGrows(s, step);
    }
  }

  ghost predicate LoadEndsAt(s: Layer, steps: seq<Step>, t: Tid, call: Call, since: nat, k: nat)
    requires ValidRun(s, steps)
  {
    k < |steps| && Enabled(StateAt(s, steps, k), steps[k]) && EndsLoad(StateAt(s, steps, k), steps[k], t, call, since)
  }

  lemma {:induction false} LoadEnds(s: Layer, steps: seq<Step>, t: Tid, call: Call, since: nat) returns (k: nat)
    requires Sound(s) && InLoad(s, t, call, since) && ValidRun(s, steps) && PcOf(After(s, steps), t).Idle?
    ensures LoadEndsAt(s, steps, t, call, since, k)
  {
    var during := (x: Layer) => Sound(x) && InLoad(x, t, call, since);
    var ends := (x: Layer, step: Step) => Enabled(x, step) && EndsLoad(x, step, t, call, since);
    forall x, step | during(x) && Enabled(x, step)
      ensures during(Apply(x, step)) || ends(x, step)
    {
      StepOfLoad(x, step, t, call, since);
      StepKeepsSound(x, step);
    }
    k := LastDuring(s, steps, during, ends);
  }

  /**
   In every run, a load that has returned has put an entry created for it under
   its name, or the layer was closing when it held the operation mutex, or the name
   was taken, or its process could not be launched.
   */
  lemma LoadReturns(s: Layer, steps: seq<Step>, t: Tid, call: Call) returns (k: nat)
    requires Reachable(s) && ValidRun(s, steps) && steps != [] && steps[0] == Start(t, Load(call))
    requires PcOf(After(s, steps), t).Idle?
    ensures LoadEndsAt(s, steps, t, call, s.history.created, k)
  {
    ReachableSound(s);
    StepKeepsSound(s, steps[0]);
    k := LoadEnds(Apply(s, steps[0]), steps[1..], t, call, s.history.created);
    Shift(s, steps, k);
    k := k + 1;
  }

  // ---------------------------------------------------------------------
  // An unload, in every run
  // ---------------------------------------------------------------------

  predicate InUnload(pc: Pc, call: Call) {
    pc == UnloadLock(call) || pc == UnloadMapLock(call) || pc == UnloadFind(call)
  }

  /** Refused: nothing is loaded under the name, or an external unload meets an entry with a process. */
  predicate Refused(table: map<Slot, Entry>, call: Call) {
    call.slot !in table || (call.external && !table[call.slot].external)
  }

  /** The unload has removed the entry, and by the end has stopped it, or let it go if it was unloaded as external. */
  predicate Unloaded(before: Layer, after: Layer, end: Layer, call: Call)
    requires call.slot in before.table
  {
    var e := before.table[call.slot];
    && after.table == before.table - {call.slot}
    && (if call.external then e in end.history.dropped else e in end.history.stopCalls)
  }

  ghost predicate UnloadsAt(s: Layer, steps: seq<Step>, t: Tid, call: Call, k: nat)
    requires ValidRun(s, steps)
  {
    && k < |steps| && steps[k] == Run(t) && PcOf(StateAt(s, steps, k), t) == UnloadFind(call)
    && var x, y := StateAt(s, steps, k), StateAt(s, steps, k + 1);
       if Refused(x.table, call) then y.table == x.table && y.history == x.history
       else Unloaded(x, y, After(s, steps), call)
  }

  /** An entry taken out to be stopped is handed to the stop routine before the unload returns. */
  lemma {:induction false} TakenOutIsStopped(s: Layer, steps: seq<Step>, t: Tid, side: Side, e: Entry)
    requires PcOf(s, t) == UnloadStop(side, e) && ValidRun(s, steps) && PcOf(After(s, steps), t).Idle?
    ensures e in After(s, steps).history.stopCalls
    decreases |steps|
  {
    if steps != [] {
      if steps[0].t == t {
        HistoryGrowsAlong(Apply(s, steps[0]), steps[1..]);
      } else {
        OthersLeaveIt(s, steps[0], t);
        TakenOutIsStopped(Apply(s, steps[0]), steps[1..], t, side, e);
      }
    }
  }

  lemma FindUnloads(s: Layer, steps: seq<Step>, t: Tid, call: Call)
    requires PcOf(s, t) == UnloadFind(call) && ValidRun(s, steps) && PcOf(After(s, steps), t).Idle?
    requires steps != [] && steps[0] == Run(t)
    ensures UnloadsAt(s, steps, t, call, 0)
  {
    var y := Apply(s, steps[0]);
    assert StateAt(s, steps, 1) == y;
    if !Refused(s.table, call) {
      var e := s.table[call.slot];
      if call.external {
        HistoryGrowsAlong(y, steps[1..]);
      } else {
        TakenOutIsStopped(y, steps[1..], t, call.slot.side, e);
      }
    }
  }

  lemma {:induction false} UnloadEnds(s: Layer, steps: seq<Step>, t: Tid, call: Call) returns (k: nat)
    requires InUnload(PcOf(s, t), call) && ValidRun(s, steps) && PcOf(After(s, steps), t).Idle?
    ensures UnloadsAt(s, steps, t, call, k)
    decreases |steps|
  {
    if steps[0] == Run(t) && PcOf(s, t) == UnloadFind(call) {
      FindUnloads(s, steps, t, call);
      k := 0;
    } else {
      if steps[0].t != t {
        OthersLeaveIt(s, steps[0], t);
      }
      k := UnloadEnds(Apply(s, steps[0]), steps[1..], t, call);
      Shift(s, steps, k);
      Shift(s, steps, k + 1);
      k := k + 1;
    }
  }

  /**
   In every run, an unload that has returned has removed the entry and handed it to
   the stop routine, or let an external one go, unless nothing was loaded under the
   name or an external unload met an entry with a process; then it changed nothing.
   */
  lemma UnloadReturns(s: Layer, steps: seq<Step>, t: Tid, call: Call) returns (k: nat)
    requires ValidRun(s, steps) && steps != [] && steps[0] == Start(t, Unload(call))
    requires PcOf(After(s, steps), t).Idle?
    ensures UnloadsAt(s, steps, t, call, k)
  {
    k := UnloadEnds(Apply(s, steps[0]), steps[1..], t, call);
    Shift(s, steps, k);
    Shift(s, steps, k + 1);
    k := k + 1;
  }

  // ---------------------------------------------------------------------
  // A close, in every run
  // ---------------------------------------------------------------------

  ghost predicate AllStopped(entries: set<Entry>, h: History) { forall e :: e in entries ==> e in h.stopCalls }

  /** What a closing thread has still to stop: generators and controllers. */
  function Todo(pc: Pc): Option<(set<Entry>, set<Entry>)> {
    match pc
    case CloseUnlock(generators, controllers) => Some((generators, controllers))
    case CloseStop(generators, controllers) => Some((generators, controllers))
    case CloseStopping(_, generators, controllers) => Some((generators, controllers))
    case _ => None
  }

  /** All that the thread took is still to stop or has been stopped, and no controller before all generators. */
  ghost predicate Emptying(s: Layer, t: Tid, generators: set<Entry>, controllers: set<Entry>) {
    match Todo(PcOf(s, t))
    case Some((g, c)) =>
      && AllStopped(generators - g, s.history) && AllStopped(controllers - c, s.history)
      && (g != {} ==> forall e :: e in controllers ==> e !in s.history.stopCalls)
    case None => AllStopped(generators, s.history) && AllStopped(controllers, s.history)
  }

  lemma StoppedByHolder(s: Layer, step: Step, e: Entry)
    requires Enabled(s, step) && e !in s.history.stopCalls && e in Apply(s, step).history.stopCalls
    ensures step.t in s.threads && PlaceIn(step.t, s.threads[step.t], e) == Some(Extracted(step.t))
  {
  }

  lemma PlacedWith(s: Layer, place: map<Entry, Place>, t: Tid, u: Tid, e: Entry)
    requires PlacesFit(s, place) && t in s.threads && u in s.threads
    requires PlaceIn(t, s.threads[t], e) == Some(Extracted(t)) && PlaceIn(u, s.threads[u], e) == Some(Extracted(u))
    ensures t == u
  {
  }

  /** What a closing thread has still to stop is in its hands, unless it is being stopped already. */
  lemma TodoIsHeld(s: Layer, t: Tid, e: Entry)
    requires Todo(PcOf(s, t)).Some? && (e in Todo(PcOf(s, t)).value.0 || e in Todo(PcOf(s, t)).value.1)
    requires PcOf(s, t).CloseStopping? ==> e != PcOf(s, t).entry
    ensures t in s.threads && PlaceIn(t, s.threads[t], e) == Some(Extracted(t))
  {
  }

  /** Another thread stops only entries of its own. */
  lemma OthersStopTheirOwn(s: Layer, step: Step, t: Tid, e: Entry)
    requires Sound(s) && Enabled(s, step) && step.t != t
    requires Todo(PcOf(s, t)).Some? && (e in Todo(PcOf(s, t)).value.0 || e in Todo(PcOf(s, t)).value.1)
    requires e !in s.history.stopCalls
    ensures e !in Apply(s, step).history.stopCalls
  {
    var place :| Inv(s, place);
    TodoIsHeld(s, t, e);
    if e in Apply(s, step).history.stopCalls {
      StoppedByHolder(s, step, e);
      PlacedWith(s, place, t, step.t, e);
    }
  }

  lemma OthersKeepEmptying(s: Layer, step: Step, t: Tid, gs: set<Entry>, cs: set<Entry>)
    requires Sound(s) && Enabled(s, step) && step.t != t && Emptying(s, t, gs, cs)
    ensures Emptying(Apply(s, step), t, gs, cs)
  {
    OthersLeaveIt(s, step, t);
    HistoryGrows(s, step);
    match Todo(PcOf(s, t))
    case Some((g, c)) =>
      if g != {} {
        forall e | e in cs
          ensures e !in Apply(s, step).history.stopCalls
        {
          assert e in c;
          OthersStopTheirOwn(s, step, t, e);
        }
      }
    case None =>
  }

  lemma OwnStepKeepsEmptying(s: Layer, step: Step, t: Tid, gs: set<Entry>, cs: set<Entry>)
    requires Enabled(s, step) && step.t == t && Emptying(s, t, gs, cs) && gs !! cs
    requires Todo(PcOf(s, t)).Some? ==> Todo(PcOf(s, t)).value.0 <= gs && Todo(PcOf(s, t)).value.1 <= cs
    requires Todo(PcOf(s, t)).None? ==> !PcOf(s, t).CloseLocking?
    ensures Emptying(Apply(s, step), t, gs, cs)
    ensures Todo(PcOf(Apply(s, step), t)).Some? ==> Todo(PcOf(s, t)).Some?
  {
    HistoryGrows(s, step);
  }

  ghost predicate Owed(s: Layer, t: Tid, gs: set<Entry>, cs: set<Entry>) {
    && Emptying(s, t, gs, cs) && gs !! cs
    && Todo(PcOf(s, t)).Some? && Todo(PcOf(s, t)).value.0 <= gs && Todo(PcOf(s, t)).value.1 <= cs
  }

  lemma StepOfOwed(s: Layer, step: Step, t: Tid, gs: set<Entry>, cs: set<Entry>)
    requires Sound(s) && Enabled(s, step) && Owed(s, t, gs, cs)
    ensures var n := Apply(s, step);
      Owed(n, t, gs, cs) || (AllStopped(gs, n.history) && AllStopped(cs, n.history))
    ensures PcOf(Apply(s, step), t).Idle? ==> !Owed(Apply(s, step), t, gs, cs)
  {
    if step.t == t {
      OwnStepKeepsEmptying(s, step, t, gs, cs);
    } else {
      OthersKeepEmptying(s, step, t, gs, cs);
      OthersLeaveIt(s, step, t);
    }
  }

  lemma AllStoppedStays(entries: set<Entry>, s: Layer, steps: seq<Step>)
    requires ValidRun(s, steps) && AllStopped(entries, s.history)
    ensures AllStopped(entries, After(s, steps).history)
  {
    HistoryGrowsAlong(s, steps);
  }

  /** A closing thread stops no controller before all generators, and in the end everything it took. */
  lemma {:induction false} TakenIsStopped(s: Layer, steps: seq<Step>, t: Tid, gs: set<Entry>, cs: set<Entry>)
    requires Sound(s) && Owed(s, t, gs, cs) && ValidRun(s, steps)
    ensures var n := After(s, steps);
      && (PcOf(n, t).Idle? ==> AllStopped(gs, n.history) && AllStopped(cs, n.history))
      && (forall e :: e in cs && e in n.history.stopCalls ==> AllStopped(gs, n.history))
    decreases |steps|
  {
    if steps != [] {
      var n := Apply(s, steps[0]);
      StepOfOwed(s, steps[0], t, gs, cs);
      if Owed(n, t, gs, cs) {
        StepKeepsSound(s, steps[0]);
        TakenIsStopped(n, steps[1..], t, gs, cs);
      } else {
        AllStoppedStays(gs, n, steps[1..]);
        AllStoppedStays(cs, n, steps[1..]);
      }
    } else if Todo(PcOf(s, t)).value.0 == {} {
      assert gs - {} == gs;
    }
  }

  /** What the swap at step `k` took from a side. */
  ghost function TakenAt(s: Layer, steps: seq<Step>, k: nat, side: Side): set<Entry>
    requires ValidRun(s, steps) && k <= |steps|
  {
    EntriesOf(StateAt(s, steps, k).table, side)
  }

  lemma MappedAreApart(s: Layer, place: map<Entry, Place>, e: Entry)
    requires PlacesFit(s, place) && e in EntriesOf(s.table, Controllers)
    ensures e !in s.history.stopCalls && e !in EntriesOf(s.table, Generators)
  {
    var slot :| slot in s.table && slot.side == Controllers && s.table[slot] == e;
    assert place[e] == Mapped(slot);
  }

  lemma SwapStarts(s: Layer, t: Tid)
    requires PcOf(s, t) == CloseLocking(ALL) && Enabled(s, Run(t))
    requires forall e :: e in EntriesOf(s.table, Controllers) ==>
               e !in s.history.stopCalls && e !in EntriesOf(s.table, Generators)
    ensures Owed(Apply(s, Run(t)), t, EntriesOf(s.table, Generators), EntriesOf(s.table, Controllers))
  {
  }

  lemma SwapOwes(s: Layer, t: Tid)
    requires Sound(s) && PcOf(s, t) == CloseLocking(ALL) && Enabled(s, Run(t))
    ensures Owed(Apply(s, Run(t)), t, EntriesOf(s.table, Generators), EntriesOf(s.table, Controllers))
  {
    var place :| Inv(s, place);
    forall e | e in EntriesOf(s.table, Controllers)
      ensures e !in s.history.stopCalls && e !in EntriesOf(s.table, Generators)
    {
      MappedAreApart(s, place, e);
    }
    SwapStarts(s, t);
  }

  /** The step swaps the maps out, with all four mutexes held and the layer closing. */
  predicate Swaps(s: Layer, step: Step, t: Tid) {
    step == Run(t) && PcOf(s, t) == CloseLocking(ALL) && s.closing
  }

  /** The thread is before the swap of its close. */
  predicate BeforeSwap(s: Layer, t: Tid) {
    PcOf(s, t).CloseFlag? || (PcOf(s, t).CloseLocking? && s.closing)
  }

  lemma StepBeforeSwap(s: Layer, step: Step, t: Tid)
    requires BeforeSwap(s, t) && Enabled(s, step)
    ensures BeforeSwap(Apply(s, step), t) || Swaps(s, step, t)
  {
    if step.t != t {
      OthersLeaveIt(s, step, t);
    }
  }

  /** Step `k` is the close's swap, and all it took has been stopped by the end. */
  ghost predicate ClosesAt(s: Layer, steps: seq<Step>, t: Tid, k: nat)
    requires ValidRun(s, steps)
  {
    && k < |steps| && Swaps(StateAt(s, steps, k), steps[k], t)
    && AllStopped(TakenAt(s, steps, k, Generators), After(s, steps).history)
    && AllStopped(TakenAt(s, steps, k, Controllers), After(s, steps).history)
  }

  lemma ClosesFirst(s: Layer, steps: seq<Step>, t: Tid)
    requires Sound(s) && ValidRun(s, steps) && steps != [] && PcOf(After(s, steps), t).Idle?
    requires steps[0] == Run(t) && PcOf(s, t) == CloseLocking(ALL) && s.closing
    ensures ClosesAt(s, steps, t, 0)
  {
    SwapOwes(s, t);
    StepKeepsSound(s, steps[0]);
    TakenIsStopped(Apply(s, steps[0]), steps[1..], t, EntriesOf(s.table, Generators), EntriesOf(s.table, Controllers));
  }

  lemma CloseEnds(s: Layer, steps: seq<Step>, t: Tid) returns (k: nat)
    requires Sound(s) && BeforeSwap(s, t) && ValidRun(s, steps) && PcOf(After(s, steps), t).Idle?
    ensures k < |steps| && Sound(StateAt(s, steps, k)) && Swaps(StateAt(s, steps, k), steps[k], t)
  {
    var during := (x: Layer) => Sound(x) && BeforeSwap(x, t);
    var ends := (x: Layer, step: Step) => Swaps(x, step, t);
    forall x, step | during(x) && Enabled(x, step)
      ensures during(Apply(x, step)) || ends(x, step)
    {
      StepBeforeSwap(x, step, t);
      StepKeepsSound(x, step);
    }
    k := LastDuring(s, steps, during, ends);
  }

  /**
   In every run, a close that has returned has set the flag, emptied both maps at
   once with all mutexes held, and handed all that was in them to the stop routine.
   */
  lemma CloseReturns(s: Layer, steps: seq<Step>, t: Tid) returns (k: nat)
    requires Reachable(s) && ValidRun(s, steps) && steps != [] && steps[0] == Start(t, Close)
    requires PcOf(After(s, steps), t).Idle?
    ensures ClosesAt(s, steps, t, k)
  {
    var n, rest := Apply(s, steps[0]), steps[1..];
    ReachableSound(s);
    StepKeepsSound(s, steps[0]);
    k := CloseEnds(n, rest, t);
    Rest(n, rest, k);
    ClosesFirst(StateAt(n, rest, k), rest[k..], t);
    Shift(s, steps, k);
    k := k + 1;
  }

  /** In every run, a close stops all the generators it took before any controller it took. */
  lemma CloseStopsGeneratorsFirst(s: Layer, t: Tid, steps: seq<Step>, e: Entry)
    requires Reachable(s) && PcOf(s, t) == CloseLocking(ALL) && Enabled(s, Run(t)) && ValidRun(Apply(s, Run(t)), steps)
    requires e in EntriesOf(s.table, Controllers) && e in After(Apply(s, Run(t)), steps).history.stopCalls
    ensures AllStopped(EntriesOf(s.table, Generators), After(Apply(s, Run(t)), steps).history)
  {
    ReachableSound(s);
    SwapOwes(s, t);
    StepKeepsSound(s, Run(t));
    TakenIsStopped(Apply(s, Run(t)), steps, t, EntriesOf(s.table, Generators), EntriesOf(s.table, Controllers));
  }

  // ---------------------------------------------------------------------
  // A look at the map, in every run
  // ---------------------------------------------------------------------

  predicate InMonitor(pc: Pc, side: Side) { pc == MonitorLock(side) || pc == MonitorRead(side) }

  /** The step reads the map of the side with its mutex held. */
  predicate ReadsMap(s: Layer, step: Step, t: Tid, side: Side) {
    step == Run(t) && PcOf(s, t) == MonitorRead(side) && Map(side) in s.owner && s.owner[Map(side)] == t
  }

  lemma StepOfMonitor(s: Layer, step: Step, t: Tid, side: Side)
    requires Sound(s) && Enabled(s, step) && InMonitor(PcOf(s, t), side)
    ensures InMonitor(PcOf(Apply(s, step), t), side) || ReadsMap(s, step, t, side)
  {
    if step.t != t {
      OthersLeaveIt(s, step, t);
    }
  }

  ghost predicate ReadsMapAt(s: Layer, steps: seq<Step>, t: Tid, side: Side, k: nat)
    requires ValidRun(s, steps)
  {
    k < |steps| && ReadsMap(StateAt(s, steps, k), steps[k], t, side)
  }

  lemma ReadsLater(s: Layer, steps: seq<Step>, t: Tid, side: Side, k: nat)
    requires ValidRun(s, steps) && steps != [] && ReadsMapAt(Apply(s, steps[0]), steps[1..], t, side, k)
    ensures ReadsMapAt(s, steps, t, side, k + 1)
  {
    Shift(s, steps, k);
  }

  lemma MonitorEnds(s: Layer, steps: seq<Step>, t: Tid, side: Side) returns (k: nat)
    requires Sound(s) && InMonitor(PcOf(s, t), side) && ValidRun(s, steps) && PcOf(After(s, steps), t).Idle?
    ensures ReadsMapAt(s, steps, t, side, k)
  {
    var during := (x: Layer) => Sound(x) && InMonitor(PcOf(x, t), side);
    var ends := (x: Layer, step: Step) => ReadsMap(x, step, t, side);
    forall x, step | during(x) && Enabled(x, step)
      ensures during(Apply(x, step)) || ends(x, step)
    {
      StepOfMonitor(x, step, t, side);
      StepKeepsSound(x, step);
    }
    k := LastDuring(s, steps, during, ends);
  }

  lemma StartsMonitor(s: Layer, steps: seq<Step>, t: Tid, side: Side)
    requires Reachable(s) && ValidRun(s, steps) && steps != [] && steps[0] == Start(t, Monitor(side))
    ensures Sound(Apply(s, steps[0])) && InMonitor(PcOf(Apply(s, steps[0]), t), side)
    ensures ValidRun(Apply(s, steps[0]), steps[1..]) && After(s, steps) == After(Apply(s, steps[0]), steps[1..])
  {
    ReachableSound(s);
    StepKeepsSound(s, steps[0]);
  }

  /** In every run, a monitor that has returned has read its map with the map's mutex held. */
  lemma MonitorReturns(s: Layer, steps: seq<Step>, t: Tid, side: Side) returns (k: nat)
    requires Reachable(s) && ValidRun(s, steps) && steps != [] && steps[0] == Start(t, Monitor(side))
    requires PcOf(After(s, steps), t).Idle?
    ensures ReadsMapAt(s, steps, t, side, k)
  {
    StartsMonitor(s, steps, t, side);
    k := MonitorEnds(Apply(s, steps[0]), steps[1..], t, side);
    ReadsLater(s, steps, t, side, k);
    k := k + 1;
  }

  // ---------------------------------------------------------------------
  // Every operation ends
  // ---------------------------------------------------------------------

  /** Past the lock attempts of a close. */
  predicate Bounded(pc: Pc) { !pc.CloseFlag? && !pc.CloseLocking? }

  /** An upper bound on the steps a thread has left, wherever the other threads are. */
  function StepsLeft(pc: Pc): nat
    requires Bounded(pc)
  {
    match pc
    case Idle => 0
    case LoadLock(_) => 8
    case LoadCheck(_) => 7
    case LoadMapLock(_) => 6
    case LoadFind(_) => 5
    case LoadCreate(_) => 4
    case LoadMapRelock(_, _) => 3
    case LoadEmplace(_, _) => 2
    case UnloadLock(_) => 6
    case UnloadMapLock(_) => 5
    case UnloadFind(_) => 4
    case UnloadStop(_, _) => 3
    case UnloadStopping(_, _) => 2
    case OpUnlock(_) => 1
    case CloseUnlock(generators, controllers) => 2 * |generators| + 2 * |controllers| + 2
    case CloseStop(generators, controllers) => 2 * |generators| + 2 * |controllers| + 1
    case CloseStopping(_, generators, controllers) => 2 * |generators| + 2 * |controllers| + 2
    case MonitorLock(_) => 2
    case MonitorRead(_) => 1
  }

  lemma PickedAway(entries: set<Entry>, e: Entry)
    ensures |entries - {e}| == if e in entries then |entries| - 1 else |entries|
  {
    if e in entries {
      assert entries == entries - {e} + {e};
    } else {
      assert entries - {e} == entries;
    }
  }

  lemma OwnStepCounts(s: Layer, step: Step)
    requires Enabled(s, step) && !step.Start? && Bounded(PcOf(s, step.t))
    ensures var pc := PcOf(Apply(s, step), step.t); Bounded(pc) && StepsLeft(pc) < StepsLeft(PcOf(s, step.t))
  {
    if step.Pick? {
      PickedAway(PcOf(s, step.t).generators, step.e);
      PickedAway(PcOf(s, step.t).controllers, step.e);
    }
  }

  function OwnStepsIn(steps: seq<Step>, t: Tid): nat {
    if steps == [] then 0 else (if steps[0].t == t then 1 else 0) + OwnStepsIn(steps[1..], t)
  }

  ghost predicate NeverStarts(steps: seq<Step>, t: Tid) { forall op :: Start(t, op) !in steps }

  /**
   In every run, the steps a thread takes in an operation are bounded: at most eight
   in a load, six in an unload, two in a look at the maps, and, once a close has
   swapped the maps out, two for each entry it took and two more.
   */
  lemma {:induction false} OperationsEnd(s: Layer, steps: seq<Step>, t: Tid)
    requires ValidRun(s, steps) && NeverStarts(steps, t) && Bounded(PcOf(s, t))
    ensures var pc := PcOf(After(s, steps), t);
      Bounded(pc) && OwnStepsIn(steps, t) + StepsLeft(pc) <= StepsLeft(PcOf(s, t))
    decreases |steps|
  {
    if steps != [] {
      if steps[0].t == t {
        OwnStepCounts(s, steps[0]);
      } else {
        OthersLeaveIt(s, steps[0], t);
      }
      OperationsEnd(Apply(s, steps[0]), steps[1..], t);
    }
  }

  /** Before that, each mutex a close takes leaves one fewer to take, and with all of them it swaps. */
  lemma AttemptsProgress(s: Layer, t: Tid, l: Lock)
    requires Enabled(s, Take(t, l))
    ensures var pc := PcOf(Apply(s, Take(t, l)), t);
      pc.CloseLocking? && |ALL - pc.held| < |ALL - PcOf(s, t).held|
    ensures PcOf(Apply(s, Take(t, l)), t).held == ALL ==> Enabled(Apply(s, Take(t, l)), Run(t))
  {
    var held := PcOf(s, t).held;
    assert l.side == Controllers || l.side == Generators;
    assert l in ALL;
    assert ALL - held == ALL - (held + {l}) + {l};
  }

  // ---------------------------------------------------------------------
  // Each operation by itself
  // ---------------------------------------------------------------------

  /** By its own steps alone the thread takes the layer from one value to the other. */
  ghost predicate Gives(s: Layer, t: Tid, steps: seq<Step>, end: Layer) {
    (forall i :: 0 <= i < |steps| ==> steps[i] == Run(t)) && ValidRun(s, steps) && After(s, steps) == end
  }

  lemma Prepend(s: Layer, t: Tid, rest: seq<Step>, end: Layer) returns (steps: seq<Step>)
    requires Enabled(s, Run(t)) && Gives(RunStep(s, t), t, rest, end)
    ensures Gives(s, t, steps, end)
  {
    steps := [Run(t)] + rest;
    assert steps[1..] == rest;
  }

  /** The layer with one thread's progress, the mutexes, the map and the history as given. */
  function With(s: Layer, t: Tid, pc: Pc, owner: map<Lock, Tid>, table: map<Slot, Entry>, history: History): Layer {
    Layer(table, owner, s.threads[t := pc], s.closing, history)
  }

  /** A step that takes a mutex, and what follows. */
  lemma Takes(s: Layer, t: Tid, pc: Pc, owner: map<Lock, Tid>, table: map<Slot, Entry>, history: History,
              next: Pc, rest: seq<Step>, end: Layer)
    returns (steps: seq<Step>)
    requires Wants(pc).Some? && Wants(pc).value !in owner && next == NextPc(With(s, t, pc, owner, table, history), pc)
    requires Gives(With(s, t, next, owner[Wants(pc).value := t], table, history), t, rest, end)
    ensures Gives(With(s, t, pc, owner, table, history), t, steps, end)
  {
    var x := With(s, t, pc, owner, table, history);
    assert RunStep(x, t) == With(s, t, next, owner[Wants(pc).value := t], table, history);
    steps := Prepend(x, t, rest, end);
  }

  /** A step that takes none, gives back those it frees and may change the map and the history, and what follows. */
  lemma Goes(s: Layer, t: Tid, pc: Pc, owner: map<Lock, Tid>, table: map<Slot, Entry>, history: History,
             y: Layer, rest: seq<Step>, end: Layer)
    returns (steps: seq<Step>)
    requires Wants(pc).None? && !pc.Idle? && !pc.CloseFlag? && !pc.CloseLocking? && !pc.CloseStop?
    requires var x := With(s, t, pc, owner, table, history);
      y == With(s, t, NextPc(x, pc), owner - Frees(pc), TableAfter(x, pc), HistoryAfter(x, pc))
    requires Gives(y, t, rest, end)
    ensures Gives(With(s, t, pc, owner, table, history), t, steps, end)
  {
    var x := With(s, t, pc, owner, table, history);
    assert RunStep(x, t) == y;
    steps := Prepend(x, t, rest, end);
  }

  /** Both mutexes of the side are free. */
  predicate Free(owner: map<Lock, Tid>, side: Side) { Op(side) !in owner && Map(side) !in owner }

  /** With the others idle they are. */
  lemma IdleIsFree(s: Layer, t: Tid, side: Side)
    requires Reachable(s) && t in s.threads && Holding(s.threads[t]) == {}
    requires forall u :: u in s.threads && u != t ==> s.threads[u].Idle?
    ensures Free(s.owner, side)
  {
    var place := ReachableInv(s);
  }

  lemma UnlockAlone(s: Layer, t: Tid, side: Side, o: map<Lock, Tid>, table: map<Slot, Entry>, h: History)
    returns (steps: seq<Step>)
    requires Free(o, side)
    ensures Gives(With(s, t, OpUnlock(side), o[Op(side) := t], table, h), t, steps, With(s, t, Idle, o, table, h))
  {
    assert o[Op(side) := t] - {Op(side)} == o;
    var end := With(s, t, Idle, o, table, h);
    steps := Goes(s, t, OpUnlock(side), o[Op(side) := t], table, h, end, [], end);
  }

  lemma MapMutexBack(o: map<Lock, Tid>, side: Side, t: Tid)
    requires Free(o, side)
    ensures o[Op(side) := t][Map(side) := t] - {Map(side)} == o[Op(side) := t] && Map(side) !in o[Op(side) := t]
    ensures o[Op(side) := t] - {} == o[Op(side) := t]
  {
  }

  lemma EmplaceAlone(s: Layer, t: Tid, call: Call, e: Entry, o: map<Lock, Tid>, table: map<Slot, Entry>, h: History)
    returns (steps: seq<Step>)
    requires Free(o, call.slot.side) && call.slot !in table
    ensures Gives(With(s, t, LoadMapRelock(call, e), o[Op(call.slot.side) := t], table, h), t, steps,
                  With(s, t, Idle, o, table[call.slot := e], h))
  {
    var side := call.slot.side;
    var o1, full := o[Op(side) := t], table[call.slot := e];
    var end := With(s, t, Idle, o, full, h);
    MapMutexBack(o, side, t);
    steps := UnlockAlone(s, t, side, o, full, h);
    steps := Goes(s, t, LoadEmplace(call, e), o1[Map(side) := t], table, h,
                  With(s, t, OpUnlock(side), o1, full, h), steps, end);
    steps := Takes(s, t, LoadMapRelock(call, e), o1, table, h, LoadEmplace(call, e), steps, end);
  }

  lemma CreateAlone(s: Layer, t: Tid, call: Call, o: map<Lock, Tid>, table: map<Slot, Entry>, h: History)
    returns (steps: seq<Step>)
    requires Free(o, call.slot.side) && call.slot !in table
    ensures Gives(With(s, t, LoadMapLock(call), o[Op(call.slot.side) := t], table, h), t, steps,
                  With(s, t, Idle, o, table[call.slot := Entry(h.created, call.external)],
                       h.(created := h.created + 1)))
  {
    var side, e, more := call.slot.side, Entry(h.created, call.external), h.(created := h.created + 1);
    var o1 := o[Op(side) := t];
    var end := With(s, t, Idle, o, table[call.slot := e], more);
    MapMutexBack(o, side, t);
    steps := EmplaceAlone(s, t, call, e, o, table, more);
    steps := Goes(s, t, LoadCreate(call), o1, table, h,
                  With(s, t, LoadMapRelock(call, e), o1, table, more), steps, end);
    steps := Goes(s, t, LoadFind(call), o1[Map(side) := t], table, h,
                  With(s, t, LoadCreate(call), o1, table, h), steps, end);
    steps := Takes(s, t, LoadMapLock(call), o1, table, h, LoadFind(call), steps, end);
  }

  /** By itself a load of a free name on an open layer puts a new entry of its kind there and changes nothing else. */
  lemma LoadAlone(s: Layer, t: Tid, call: Call)
    returns (steps: seq<Step>)
    requires t in s.threads && s.threads[t] == LoadLock(call) && Free(s.owner, call.slot.side)
    requires !s.closing && call.slot !in s.table
    ensures var e := Entry(s.history.created, call.external);
      Gives(s, t, steps,
            With(s, t, Idle, s.owner, s.table[call.slot := e], s.history.(created := s.history.created + 1)))
  {
    var o1, h := s.owner[Op(call.slot.side) := t], s.history;
    var end := With(s, t, Idle, s.owner, s.table[call.slot := Entry(h.created, call.external)],
                    h.(created := h.created + 1));
    steps := CreateAlone(s, t, call, s.owner, s.table, h);
    MapMutexBack(s.owner, call.slot.side, t);
    steps := Goes(s, t, LoadCheck(call), o1, s.table, h, With(s, t, LoadMapLock(call), o1, s.table, h), steps, end);
    steps := Takes(s, t, LoadLock(call), s.owner, s.table, h, LoadCheck(call), steps, end);
    assert s.threads[t := LoadLock(call)] == s.threads;
  }

  lemma StopAlone(s: Layer, t: Tid, side: Side, e: Entry, o: map<Lock, Tid>, table: map<Slot, Entry>, h: History)
    returns (steps: seq<Step>)
    requires Free(o, side)
    ensures Gives(With(s, t, UnloadStop(side, e), o[Op(side) := t], table, h), t, steps,
                  With(s, t, Idle, o, table, h.(stopCalls := h.stopCalls + [e])))
  {
    var o1, more := o[Op(side) := t], h.(stopCalls := h.stopCalls + [e]);
    var end := With(s, t, Idle, o, table, more);
    MapMutexBack(o, side, t);
    steps := UnlockAlone(s, t, side, o, table, more);
    steps := Goes(s, t, UnloadStopping(side, e), o1, table, more,
                  With(s, t, OpUnlock(side), o1, table, more), steps, end);
    steps := Goes(s, t, UnloadStop(side, e), o1, table, h,
                  With(s, t, UnloadStopping(side, e), o1, table, more), steps, end);
  }

  lemma FindAlone(s: Layer, t: Tid, call: Call, o: map<Lock, Tid>, table: map<Slot, Entry>, h: History)
    returns (steps: seq<Step>)
    requires Free(o, call.slot.side) && !Refused(table, call) && !call.external
    ensures Gives(With(s, t, UnloadFind(call), o[Op(call.slot.side) := t][Map(call.slot.side) := t], table, h),
                  t, steps, With(s, t, Idle, o, table - {call.slot}, h.(stopCalls := h.stopCalls + [table[call.slot]])))
  {
    var side, e, rest := call.slot.side, table[call.slot], table - {call.slot};
    var o1 := o[Op(side) := t];
    var end := With(s, t, Idle, o, rest, h.(stopCalls := h.stopCalls + [e]));
    MapMutexBack(o, side, t);
    steps := StopAlone(s, t, side, e, o, rest, h);
    var y := With(s, t, UnloadStop(side, e), o1, rest, h);
    steps := Goes(s, t, UnloadFind(call), o1[Map(side) := t], table, h, y, steps, end);
  }

  lemma FindExternalAlone(s: Layer, t: Tid, call: Call, o: map<Lock, Tid>, table: map<Slot, Entry>, h: History)
    returns (steps: seq<Step>)
    requires Free(o, call.slot.side) && !Refused(table, call) && call.external
    ensures Gives(With(s, t, UnloadFind(call), o[Op(call.slot.side) := t][Map(call.slot.side) := t], table, h),
                  t, steps, With(s, t, Idle, o, table - {call.slot}, h.(dropped := h.dropped + {table[call.slot]})))
  {
    var side, rest, more := call.slot.side, table - {call.slot}, h.(dropped := h.dropped + {table[call.slot]});
    var o1 := o[Op(side) := t];
    var end := With(s, t, Idle, o, rest, more);
    MapMutexBack(o, side, t);
    steps := UnlockAlone(s, t, side, o, rest, more);
    var y := With(s, t, OpUnlock(side), o1, rest, more);
    steps := Goes(s, t, UnloadFind(call), o1[Map(side) := t], table, h, y, steps, end);
  }

  /** Taking both mutexes, and what follows. */
  lemma LocksAlone(s: Layer, t: Tid, call: Call, rest: seq<Step>, end: Layer) returns (steps: seq<Step>)
    requires t in s.threads && s.threads[t] == UnloadLock(call) && Free(s.owner, call.slot.side)
    requires var o2 := s.owner[Op(call.slot.side) := t][Map(call.slot.side) := t];
      Gives(With(s, t, UnloadFind(call), o2, s.table, s.history), t, rest, end)
    ensures Gives(s, t, steps, end)
  {
    var o1 := s.owner[Op(call.slot.side) := t];
    MapMutexBack(s.owner, call.slot.side, t);
    steps := Takes(s, t, UnloadMapLock(call), o1, s.table, s.history, UnloadFind(call), rest, end);
    steps := Takes(s, t, UnloadLock(call), s.owner, s.table, s.history, UnloadMapLock(call), steps, end);
    assert s.threads[t := UnloadLock(call)] == s.threads;
  }

  /** By itself an unload that is not refused removes the entry, stops it, and changes nothing else. */
  lemma UnloadAlone(s: Layer, t: Tid, call: Call) returns (steps: seq<Step>)
    requires t in s.threads && s.threads[t] == UnloadLock(call) && Free(s.owner, call.slot.side)
    requires !Refused(s.table, call) && !call.external
    ensures Gives(s, t, steps, With(s, t, Idle, s.owner, s.table - {call.slot},
                                    s.history.(stopCalls := s.history.stopCalls + [s.table[call.slot]])))
  {
    steps := FindAlone(s, t, call, s.owner, s.table, s.history);
    var h := s.history.(stopCalls := s.history.stopCalls + [s.table[call.slot]]);
    steps := LocksAlone(s, t, call, steps, With(s, t, Idle, s.owner, s.table - {call.slot}, h));
  }

  /** By itself an external unload lets an external entry go, without the stop routine. */
  lemma ExternalUnloadAlone(s: Layer, t: Tid, call: Call) returns (steps: seq<Step>)
    requires t in s.threads && s.threads[t] == UnloadLock(call) && Free(s.owner, call.slot.side)
    requires !Refused(s.table, call) && call.external
    ensures Gives(s, t, steps, With(s, t, Idle, s.owner, s.table - {call.slot},
                                    s.history.(dropped := s.history.dropped + {s.table[call.slot]})))
  {
    steps := FindExternalAlone(s, t, call, s.owner, s.table, s.history);
    var h := s.history.(dropped := s.history.dropped + {s.table[call.slot]});
    steps := LocksAlone(s, t, call, steps, With(s, t, Idle, s.owner, s.table - {call.slot}, h));
  }
}
