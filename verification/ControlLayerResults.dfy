/** What the control layer's protocol promises, over all its runs. */
module ControlLayerResults {
  import opened Options
  import opened ControlLayer

  // ---------------------------------------------------------------------
  // The rest of the invariant
  // ---------------------------------------------------------------------

  predicate Reserving(pc: Pc) { pc.LoadCreate? || pc.LoadMapRelock? || pc.LoadEmplace? }

  /** A load that has found its name absent keeps it absent until it emplaces. */
  ghost predicate Reserved(table: map<Slot, Entry>, threads: map<Tid, Pc>) {
    forall t :: t in threads && Reserving(threads[t]) ==> threads[t].call.slot !in table
  }

  /** Past the check of `closing_`, or holding an entry an unload has extracted. */
  predicate Working(pc: Pc) {
    pc.LoadMapLock? || pc.LoadFind? || pc.LoadCreate? || pc.LoadMapRelock? || pc.LoadEmplace? || pc.UnloadStop?
        || pc.UnloadStopping?
  }

  predicate Closing(pc: Pc) { pc.CloseLocking? || pc.CloseUnlock? || pc.CloseStop? || pc.CloseStopping? }

  /** A closing thread has both operation mutexes before it takes a map mutex. */
  predicate HeldInOrder(held: set<Lock>) { held <= ALL && (held <= OPS || OPS <= held) }

  ghost predicate HeldFits(threads: map<Tid, Pc>) {
    forall t :: t in threads && threads[t].CloseLocking? ==> HeldInOrder(threads[t].held)
  }

  ghost predicate ClosingFits(s: Layer) {
    && HeldFits(s.threads)
    && (forall t :: t in s.threads && Closing(s.threads[t]) ==> s.closing)
    && (s.history.swapped ==> s.closing && s.table == map[] && forall t :: t in s.threads ==> !Working(s.threads[t]))
    && (forall t :: t in s.threads && s.threads[t].CloseStopping? ==>
          s.threads[t].entry !in s.threads[t].generators && s.threads[t].entry !in s.threads[t].controllers)
  }

  ghost predicate Inv(s: Layer, place: map<Entry, Place>) {
    LocksFit(s.owner, s.threads) && PlacesFit(s, place) && Reserved(s.table, s.threads) && ClosingFits(s)
  }

  lemma RunKeepsReserved(s: Layer, t: Tid)
    requires LocksFit(s.owner, s.threads) && Reserved(s.table, s.threads) && Enabled(s, Run(t))
    ensures Reserved(RunStep(s, t).table, RunStep(s, t).threads)
  {
    var pc := s.threads[t];
    if pc.LoadEmplace? {
      forall u | u in s.threads && u != t && Reserving(s.threads[u])
        ensures s.threads[u].call.slot != pc.call.slot
      {
        assert Op(pc.call.slot.side) in Holding(pc) && s.owner[Op(pc.call.slot.side)] == t;
        assert Op(s.threads[u].call.slot.side) in Holding(s.threads[u]);
      }
    } else {
      assert TableAfter(s, pc).Keys <= s.table.Keys;
      assert Reserving(NextPc(s, pc)) ==> NextPc(s, pc).call.slot !in s.table;
    }
  }

  /** The side a working thread works on; it holds that side's operation mutex. */
  function SideOf(pc: Pc): Side
    requires Working(pc)
  {
    if pc.UnloadStop? || pc.UnloadStopping? then pc.side else pc.call.slot.side
  }

  /** The swap happens with every other operation out of the way: any working thread would be the one that swaps. */
  lemma SwapIsAlone(s: Layer, t: Tid, u: Tid)
    requires LocksFit(s.owner, s.threads) && t in s.threads && s.threads[t] == CloseLocking(ALL)
    requires u in s.threads && Working(s.threads[u])
    ensures u == t
  {
    var side := SideOf(s.threads[u]);
    assert side == Controllers || side == Generators;
    assert Op(side) in Holding(s.threads[u]) && Op(side) in Holding(s.threads[t]);
    assert s.owner[Op(side)] == u;
  }

  lemma RunKeepsClosing(s: Layer, t: Tid)
    requires LocksFit(s.owner, s.threads) && ClosingFits(s) && Enabled(s, Run(t))
    ensures ClosingFits(RunStep(s, t))
  {
    var pc := s.threads[t];
    if pc.CloseLocking? {
      forall u | u in s.threads && u != t
        ensures !Working(s.threads[u])
      {
        if Working(s.threads[u]) { SwapIsAlone(s, t, u); }
      }
    } else if s.history.swapped {
      assert !Working(NextPc(s, pc));
    }
  }

  lemma PassingHolds(s: Layer, pc: Pc, t: Tid)
    requires !pc.LoadCreate? && !pc.LoadEmplace? && !(pc.UnloadFind? && Unloadable(s.table, pc.call))
    requires !pc.UnloadStop? && !pc.UnloadStopping? && !pc.CloseStopping? && !pc.CloseLocking?
    requires pc.CloseStop? ==> pc.generators == {} && pc.controllers == {}
    ensures forall e :: PlaceIn(t, NextPc(s, pc), e) == PlaceIn(t, pc, e)
    ensures TableAfter(s, pc) == s.table && HistoryAfter(s, pc) == s.history
  {
  }

  /** The remaining statements touch no entry. */
  lemma PassingKeepsPlaces(s: Layer, place: map<Entry, Place>, t: Tid)
    requires PlacesFit(s, place) && Enabled(s, Run(t))
    requires var pc := s.threads[t];
      && !pc.LoadCreate? && !pc.LoadEmplace? && !(pc.UnloadFind? && Unloadable(s.table, pc.call))
      && !pc.UnloadStop? && !pc.UnloadStopping? && !pc.CloseStopping? && !pc.CloseLocking?
    ensures PlacesFit(RunStep(s, t), place)
  {
    var pc := s.threads[t];
    PassingHolds(s, pc, t);
    ThreadKeeps(s.threads, place, t, pc, NextPc(s, pc));
  }

  lemma RunKeepsPlaces(s: Layer, place: map<Entry, Place>, t: Tid) returns (after: map<Entry, Place>)
    requires Inv(s, place) && Enabled(s, Run(t))
    ensures PlacesFit(RunStep(s, t), after)
  {
    var pc := s.threads[t];
    after := place;
    if pc.LoadCreate? {
      CreateKeepsPlaces(s, place, t);
      after := place[Entry(s.history.created, pc.call.external) := Loading(t)];
    } else if pc.LoadEmplace? {
      EmplaceKeepsPlaces(s, place, t);
      after := place[pc.entry := Mapped(pc.call.slot)];
    } else if pc.UnloadFind? && Unloadable(s.table, pc.call) {
      UnloadKeepsPlaces(s, place, t);
      after := place[s.table[pc.call.slot] := if pc.call.external then LetGo else Extracted(t)];
    } else if pc.UnloadStop? {
      StopKeepsPlaces(s, place, t);
      after := place[pc.entry := Stopping(t)];
    } else if pc.UnloadStopping? || pc.CloseStopping? {
      StoppedKeepsPlaces(s, place, t);
      after := place[pc.entry := Stopped];
    } else if pc.CloseLocking? {
      SwapKeepsPlaces(s, place, t);
      after := Swapped(place, t);
    } else {
      PassingKeepsPlaces(s, place, t);
    }
  }

  lemma RunKeepsInv(s: Layer, place: map<Entry, Place>, t: Tid) returns (after: map<Entry, Place>)
    requires Inv(s, place) && Enabled(s, Run(t))
    ensures Inv(RunStep(s, t), after)
  {
    after := RunKeepsPlaces(s, place, t);
    StepKeepsLocks(s, Run(t));
    RunKeepsReserved(s, t);
    RunKeepsClosing(s, t);
  }

  /** Steps that only change where a thread is, and perhaps a mutex, among places that hold and reserve nothing. */
  lemma JumpKeepsInv(s: Layer, place: map<Entry, Place>, step: Step, after: Pc)
    requires Inv(s, place) && Enabled(s, step) && !step.Run? && !step.Pick?
    requires Apply(s, step).threads == s.threads[step.t := after]
    requires Apply(s, step).table == s.table && Apply(s, step).history == s.history
        && Apply(s, step).closing == s.closing
    requires forall e :: PlaceIn(step.t, after, e) == PlaceIn(step.t, PcOf(s, step.t), e)
    requires !Reserving(after) && !Working(after) && !after.CloseStopping? && (Closing(after) ==> s.closing)
    requires after.CloseLocking? ==> HeldInOrder(after.held)
    ensures Inv(Apply(s, step), place)
  {
    StepKeepsLocks(s, step);
    ThreadKeeps(s.threads, place, step.t, PcOf(s, step.t), after);
  }

  lemma PickKeepsInv(s: Layer, place: map<Entry, Place>, t: Tid, e: Entry)
    requires Inv(s, place) && Enabled(s, Pick(t, e))
    ensures Inv(Apply(s, Pick(t, e)), place[e := Stopping(t)])
  {
    StepKeepsLocks(s, Pick(t, e));
    PickKeepsPlaces(s, place, t, e);
  }

  lemma StepKeepsInv(s: Layer, place: map<Entry, Place>, step: Step) returns (after: map<Entry, Place>)
    requires Inv(s, place) && Enabled(s, step)
    ensures Inv(Apply(s, step), after)
  {
    after := place;
    match step
    case Start(t, op) => JumpKeepsInv(s, place, step, First(op));
    case Run(t) => after := RunKeepsInv(s, place, t);
    case Fail(t) => JumpKeepsInv(s, place, step, OpUnlock(s.threads[t].call.slot.side));
    case Take(t, l) =>
      assert l in ALL by { assert l.side == Controllers || l.side == Generators; }
      JumpKeepsInv(s, place, step, CloseLocking(s.threads[t].held + {l}));
    case Drop(t, l) => JumpKeepsInv(s, place, step, CloseLocking(s.threads[t].held - {l}));
    case Pick(t, e) => PickKeepsInv(s, place, t, e); after := place[e := Stopping(t)];
  }

  lemma {:induction false} RunsKeepInv(s: Layer, place: map<Entry, Place>, steps: seq<Step>)
    returns (after: map<Entry, Place>)
    requires Inv(s, place) && ValidRun(s, steps)
    ensures Inv(After(s, steps), after)
    decreases |steps|
  {
    after := place;
    if steps != [] {
      after := StepKeepsInv(s, place, steps[0]);
      after := RunsKeepInv(Apply(s, steps[0]), after, steps[1..]);
    }
  }

  lemma ReachableInv(s: Layer) returns (place: map<Entry, Place>)
    requires Reachable(s)
    ensures Inv(s, place)
  {
    var steps: seq<Step> :| ValidRun(START, steps) && s == After(START, steps);
    place := RunsKeepInv(START, map[], steps);
  }

  // ---------------------------------------------------------------------
  // Results
  // ---------------------------------------------------------------------

  /** A thread is loading, about to stop or stopping the entry. */
  ghost predicate HeldBy(s: Layer, t: Tid, e: Entry) { t in s.threads && PlaceIn(t, s.threads[t], e).Some? }

  ghost predicate InMap(s: Layer, e: Entry) { exists slot :: slot in s.table && s.table[slot] == e }

  ghost predicate Held(s: Layer, e: Entry) { exists t :: HeldBy(s, t, e) }

  /** The thread is about to emplace or to stop the entry. */
  ghost predicate Pending(s: Layer, t: Tid, e: Entry) {
    && t in s.threads
    && (PlaceIn(t, s.threads[t], e) == Some(Loading(t)) || PlaceIn(t, s.threads[t], e) == Some(Extracted(t)))
  }

  ghost predicate Whereabouts(s: Layer, e: Entry) {
    InMap(s, e) || Held(s, e) || e in s.history.stopCalls || e in s.history.dropped
  }

  /** No entry is handed to the stop routine twice. */
  lemma StoppedAtMostOnce(s: Layer, i: nat, j: nat)
    requires Reachable(s) && i < j < |s.history.stopCalls|
    ensures s.history.stopCalls[i] != s.history.stopCalls[j]
  {
    var place := ReachableInv(s);
  }

  /**
   No entry still in a map has been handed to the stop routine, or let go, or is
   in any thread's hands, and no two names share an entry. So a monitor, which
   looks at the maps, never sees an entry that is being stopped.
   */
  lemma MappedEntriesAreLive(s: Layer, slot: Slot)
    requires Reachable(s) && slot in s.table
    ensures s.table[slot] !in s.history.stopCalls && s.table[slot] !in s.history.dropped && !Held(s, s.table[slot])
    ensures forall other :: other in s.table && s.table[other] == s.table[slot] ==> other == slot
  {
    var place := ReachableInv(s);
    assert place[s.table[slot]] == Mapped(slot);
  }

  /** No two threads hold the same entry, and an entry waiting to be emplaced or stopped has not been stopped. */
  lemma HeldEntriesAreExclusive(s: Layer, t: Tid, u: Tid, e: Entry)
    requires Reachable(s) && HeldBy(s, t, e) && HeldBy(s, u, e)
    ensures t == u && e !in s.history.dropped
    ensures Pending(s, t, e) <==> e !in s.history.stopCalls
  {
    var place := ReachableInv(s);
    assert place[e] == PlaceIn(t, s.threads[t], e).value && place[e] == PlaceIn(u, s.threads[u], e).value;
  }

  lemma Located(s: Layer, place: map<Entry, Place>, e: Entry)
    requires Inv(s, place) && e in place
    ensures Whereabouts(s, e)
  {
    if place[e].Mapped? {
      assert s.table[place[e].slot] == e;
    } else if ByThread(place[e]) {
      assert HeldBy(s, place[e].t, e);
    }
  }

  /**
   Nothing is lost: every entry ever created is in a map, in a thread's hands,
   has been handed to the stop routine, or was an external controller let go; and
   only external controllers are ever let go.
   */
  lemma EveryEntryAccountedFor(s: Layer, id: nat)
    requires Reachable(s) && id < s.history.created
    ensures exists e: Entry :: e.id == id && Whereabouts(s, e)
    ensures forall e :: e in s.history.dropped ==> e.external && e !in s.history.stopCalls
  {
    var place := ReachableInv(s);
    var e := if Entry(id, true) in place then Entry(id, true) else Entry(id, false);
    assert e in place;
    Located(s, place, e);
  }

  /** A load that gets as far as emplacing its entry always inserts it. */
  lemma EmplaceInserts(s: Layer, t: Tid)
    requires Reachable(s) && t in s.threads && s.threads[t].LoadEmplace?
    ensures RunStep(s, t).table == s.table[s.threads[t].call.slot := s.threads[t].entry]
    ensures s.threads[t].call.slot !in s.table && RunStep(s, t).history == s.history
  {
    var place := ReachableInv(s);
  }

  /** A program counter at which a thread reads or writes the map of a side. */
  predicate Accesses(pc: Pc, side: Side) {
    match pc
    case LoadFind(call) => call.slot.side == side
    case LoadEmplace(call, _) => call.slot.side == side
    case UnloadFind(call) => call.slot.side == side
    case MonitorRead(x) => x == side
    case CloseLocking(held) => held == ALL
    case _ => false
  }

  /** No two threads are ever about to access the same map. */
  lemma MapAccessIsExclusive(s: Layer, t: Tid, u: Tid, side: Side)
    requires Reachable(s) && t in s.threads && u in s.threads
    requires Accesses(s.threads[t], side) && Accesses(s.threads[u], side)
    ensures t == u
  {
    var place := ReachableInv(s);
    assert Map(side) in Holding(s.threads[t]) && Map(side) in Holding(s.threads[u]);
    assert s.owner[Map(side)] == t && s.owner[Map(side)] == u;
  }

  // -- After close

  lemma StepStaysClosed(s: Layer, place: map<Entry, Place>, step: Step)
    requires Inv(s, place) && s.history.swapped && Enabled(s, step)
    ensures Apply(s, step).history.swapped && Apply(s, step).table == map[]
    ensures Apply(s, step).history.created == s.history.created
  {
  }

  lemma {:induction false} RunStaysClosed(s: Layer, place: map<Entry, Place>, steps: seq<Step>)
    requires Inv(s, place) && s.history.swapped && ValidRun(s, steps)
    ensures After(s, steps).history.swapped && After(s, steps).table == map[]
    ensures After(s, steps).history.created == s.history.created
    decreases |steps|
  {
    if steps != [] {
      StepStaysClosed(s, place, steps[0]);
      var after := StepKeepsInv(s, place, steps[0]);
      RunStaysClosed(Apply(s, steps[0]), after, steps[1..]);
    }
  }

  /** Once `close` has swapped the maps out they stay empty for ever, and no entry is ever created again. */
  lemma MapsStayEmptyAfterClose(s: Layer, steps: seq<Step>)
    requires Reachable(s) && s.history.swapped && ValidRun(s, steps)
    ensures s.table == map[] && After(s, steps).table == map[]
    ensures After(s, steps).history.created == s.history.created
  {
    var place := ReachableInv(s);
    RunStaysClosed(s, place, steps);
  }

  predicate StillStopping(pc: Pc) { pc.CloseUnlock? || pc.CloseStop? || pc.CloseStopping? }

  lemma NobodyHolds(s: Layer, e: Entry)
    requires ClosingFits(s) && s.history.swapped
    requires forall t :: t in s.threads ==> !StillStopping(s.threads[t])
    ensures !Held(s, e) && !InMap(s, e)
  {
  }

  /**
   After the swap only closing threads hold entries. Once none is still stopping
   any, every entry ever created has been handed to the stop routine, exactly
   once, or was an external controller let go by name, and not both.
   */
  lemma AfterCloseEverythingIsStopped(s: Layer, id: nat)
    requires Reachable(s) && s.history.swapped && id < s.history.created
    requires forall t :: t in s.threads ==> !StillStopping(s.threads[t])
    ensures exists e: Entry :: e.id == id && (e in s.history.stopCalls <==> e !in s.history.dropped)
  {
    var place := ReachableInv(s);
    EveryEntryAccountedFor(s, id);
    var e: Entry :| e.id == id && Whereabouts(s, e);
    NobodyHolds(s, e);
  }

  // -- Progress

  /** A step of an operation in progress. */
  predicate Progress(s: Layer, step: Step) { Enabled(s, step) && !step.Start? }

  /** Progress other than giving back a mutex in a scoped lock's retry. */
  predicate Forward(s: Layer, step: Step) { Progress(s, step) && !step.Drop? }

  /** Two closing threads hold one operation mutex each. */
  predicate Crossed(s: Layer) {
    && Op(Controllers) in s.owner && Op(Generators) in s.owner
    && s.owner[Op(Controllers)] != s.owner[Op(Generators)]
    && PcOf(s, s.owner[Op(Controllers)]).CloseLocking? && PcOf(s, s.owner[Op(Generators)]).CloseLocking?
  }

  ghost predicate LocksInOrder(s: Layer) { LocksFit(s.owner, s.threads) && HeldFits(s.threads) }

  /** A thread that waits for no mutex and takes no scoped lock can take its next step. */
  lemma UnblockedSteps(s: Layer, t: Tid) returns (step: Step)
    requires t in s.threads && !s.threads[t].Idle? && Wants(s.threads[t]).None? && !s.threads[t].CloseLocking?
    ensures Forward(s, step)
  {
    var pc := s.threads[t];
    step := Run(t);
    if pc.CloseStop? {
      if pc.generators != {} {
        var e :| e in pc.generators;
        step := Pick(t, e);
      } else if pc.controllers != {} {
        var e :| e in pc.controllers;
        step := Pick(t, e);
      }
    }
  }

  /** Only one closing thread has both operation mutexes, so another holder of a map mutex is not closing. */
  lemma MapHolderSteps(s: Layer, t: Tid, l: Lock) returns (step: Step)
    requires LocksInOrder(s) && t in s.threads && s.threads[t].CloseLocking? && OPS <= s.threads[t].held
    requires l.Map? && l in s.owner && s.owner[l] != t
    ensures Forward(s, step)
  {
    var u := s.owner[l];
    assert l in Holding(s.threads[u]) && l !in OPS;
    assert Op(Controllers) in Holding(s.threads[t]);
    assert Op(Controllers) in Holding(s.threads[u]) ==> u == t;
    step := UnblockedSteps(s, u);
  }

  /** A closing thread with both operation mutexes gets on, or whoever holds the map mutex it lacks does. */
  lemma CloserWithOpsSteps(s: Layer, t: Tid) returns (step: Step)
    requires LocksInOrder(s) && t in s.threads && s.threads[t].CloseLocking? && OPS <= s.threads[t].held
    ensures Forward(s, step)
  {
    var held := s.threads[t].held;
    if held == ALL {
      step := Run(t);
    } else {
      var l := if Map(Controllers) in held then Map(Generators) else Map(Controllers);
      assert l !in held;
      if l in s.owner {
        step := MapHolderSteps(s, t, l);
      } else {
        step := Take(t, l);
      }
    }
  }

  /** Whenever a map mutex is wanted, its holder can step. */
  lemma MapWaiterSteps(s: Layer, t: Tid) returns (step: Step)
    requires LocksInOrder(s) && t in s.threads && Wants(s.threads[t]).Some? && Wants(s.threads[t]).value.Map?
    ensures Forward(s, step)
  {
    var l := Wants(s.threads[t]).value;
    if l in s.owner {
      var u := s.owner[l];
      assert l in Holding(s.threads[u]) && l !in OPS;
      if s.threads[u].CloseLocking? {
        step := CloserWithOpsSteps(s, u);
      } else {
        step := UnblockedSteps(s, u);
      }
    } else {
      step := Run(t);
    }
  }

  /** Any operation past its operation mutex can get on. */
  lemma BusySteps(s: Layer, t: Tid) returns (step: Step)
    requires LocksInOrder(s) && t in s.threads && !s.threads[t].Idle?
    requires !s.threads[t].LoadLock? && !s.threads[t].UnloadLock? && !s.threads[t].CloseLocking?
    ensures Forward(s, step)
  {
    if Wants(s.threads[t]).Some? {
      step := MapWaiterSteps(s, t);
    } else {
      step := UnblockedSteps(s, t);
    }
  }

  /** A closing thread that holds an operation mutex gets on, unless another one holds the other. */
  lemma CloserSteps(s: Layer, t: Tid, l: Lock) returns (step: Step)
    requires LocksInOrder(s) && t in s.threads && s.threads[t].CloseLocking? && l.Op? && l in s.threads[t].held
    ensures Crossed(s) || Forward(s, step)
  {
    var other := Op(if l.side == Controllers then Generators else Controllers);
    if other in s.threads[t].held {
      step := CloserWithOpsSteps(s, t);
    } else if other !in s.owner {
      step := Take(t, other);
    } else {
      var u := s.owner[other];
      assert other in Holding(s.threads[u]) && s.owner[l] == t;
      if s.threads[u].CloseLocking? {
        step := Drop(t, l);
      } else {
        step := BusySteps(s, u);
      }
    }
  }

  lemma OpWaiterSteps(s: Layer, t: Tid, l: Lock) returns (step: Step)
    requires LocksInOrder(s) && l.Op?
    requires t in s.threads && (Wants(s.threads[t]) == Some(l) || s.threads[t] == CloseLocking({}))
    ensures Crossed(s) || Forward(s, step)
  {
    if l in s.owner {
      var u := s.owner[l];
      assert l in Holding(s.threads[u]);
      if s.threads[u].CloseLocking? {
        step := CloserSteps(s, u, l);
      } else {
        step := BusySteps(s, u);
      }
    } else if s.threads[t].CloseLocking? {
      step := Take(t, l);
    } else {
      step := Run(t);
    }
  }

  lemma AnyoneSteps(s: Layer, t: Tid) returns (step: Step)
    requires LocksInOrder(s) && t in s.threads && !s.threads[t].Idle?
    ensures Crossed(s) || Forward(s, step)
  {
    var pc := s.threads[t];
    if pc.LoadLock? || pc.UnloadLock? {
      step := OpWaiterSteps(s, t, Wants(pc).value);
    } else if pc.CloseLocking? && Op(Controllers) in pc.held {
      step := CloserSteps(s, t, Op(Controllers));
    } else if pc.CloseLocking? && Op(Generators) in pc.held {
      step := CloserSteps(s, t, Op(Generators));
    } else if pc.CloseLocking? {
      assert pc.held == {};
      step := OpWaiterSteps(s, t, Op(Controllers));
    } else {
      step := BusySteps(s, t);
    }
  }

  lemma CrossedCanDrop(s: Layer) returns (step: Step)
    requires LocksInOrder(s) && Crossed(s)
    ensures Progress(s, step)
  {
    var t := s.owner[Op(Controllers)];
    assert Op(Controllers) in Holding(s.threads[t]);
    assert Op(Generators) !in Holding(s.threads[t]);
    step := Drop(t, Op(Controllers));
  }

  /**
   The protocol never deadlocks: while any operation is in progress, some thread
   can take a step of one. The step is real progress, not a scoped lock giving
   back a mutex, unless two closing threads hold one operation mutex each.
   */
  lemma NeverDeadlocks(s: Layer, t: Tid) returns (step: Step)
    requires Reachable(s) && t in s.threads && !s.threads[t].Idle?
    ensures Progress(s, step) && (step.Drop? ==> Crossed(s))
  {
    var place := ReachableInv(s);
    if Crossed(s) {
      step := CrossedCanDrop(s);
    } else {
      step := AnyoneSteps(s, t);
    }
  }

  /** With at most one thread in `close`'s locks there is always real progress. */
  lemma OneCloserNeverSpins(s: Layer, t: Tid) returns (step: Step)
    requires Reachable(s) && t in s.threads && !s.threads[t].Idle?
    requires forall u, v :: u in s.threads && v in s.threads ==>
               s.threads[u].CloseLocking? && s.threads[v].CloseLocking? ==> u == v
    ensures Forward(s, step)
  {
    step := NeverDeadlocks(s, t);
  }

  lemma CrossedHoldsOne(s: Layer, t: Tid)
    requires LocksFit(s.owner, s.threads) && Crossed(s) && t in s.threads && s.threads[t].CloseLocking?
    ensures !(OPS <= s.threads[t].held) && s.threads[t].held != ALL
  {
    var held := s.threads[t].held;
    assert Op(Controllers) in held ==> s.owner[Op(Controllers)] == t;
    assert Op(Generators) in held ==> s.owner[Op(Generators)] == t;
  }

  lemma OpCases(l: Lock)
    requires l.Op?
    ensures l == Op(Controllers) || l == Op(Generators)
  {
    assert l.side == Controllers || l.side == Generators;
  }

  /** The exception is exact: with the mutexes crossed, whoever waits for one or is closing can only give one back. */
  lemma CrossedWaitersOnlyDrop(s: Layer, step: Step)
    requires Reachable(s) && Crossed(s) && Enabled(s, step)
    requires var pc := PcOf(s, step.t); pc.LoadLock? || pc.UnloadLock? || pc.CloseLocking?
    ensures step.Drop?
  {
    var place := ReachableInv(s);
    var pc := PcOf(s, step.t);
    if pc.CloseLocking? {
      CrossedHoldsOne(s, step.t);
      if step.Take? && step.l.Op? {
        OpCases(step.l);
      }
    } else {
      OpCases(Wants(pc).value);
    }
  }
}
