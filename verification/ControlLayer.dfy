/**
 The control layer's load, unload and close protocol: any number of threads run
 operations on two maps of entries (controllers and motion generators), each
 guarded by an operation mutex and a map mutex, and `close` empties both.

 A run is a sequence of steps of any threads in any order. Taking a mutex is a
 step; what a thread does while it holds a map mutex, and releasing it, is one.
 */
module ControlLayer {
  import opened Options

  datatype Side = Controllers | Generators

  datatype Lock = Op(side: Side) | Map(side: Side)

  datatype Slot = Slot(side: Side, name: string)

  /** A loaded application; an external controller has no process. */
  datatype Entry = Entry(id: nat, external: bool)

  datatype Call = Call(slot: Slot, external: bool)

  datatype Operation = Load(call: Call) | Unload(call: Call) | Close | Monitor(side: Side)

  type Tid = nat

  datatype Pc =
    | Idle
    // loadController, loadExternalController, loadMotionGenerator
    | LoadLock(call: Call) | LoadCheck(call: Call) | LoadMapLock(call: Call) | LoadFind(call: Call)
    | LoadCreate(call: Call) | LoadMapRelock(call: Call, entry: Entry) | LoadEmplace(call: Call, entry: Entry)
    // unloadController, unloadExternalController, unloadMotionGenerator
    | UnloadLock(call: Call) | UnloadMapLock(call: Call) | UnloadFind(call: Call)
    | UnloadStop(side: Side, entry: Entry) | UnloadStopping(side: Side, entry: Entry)
    | OpUnlock(side: Side)
    // close
    | CloseFlag | CloseLocking(held: set<Lock>) | CloseUnlock(generators: set<Entry>, controllers: set<Entry>)
    | CloseStop(generators: set<Entry>, controllers: set<Entry>)
    | CloseStopping(entry: Entry, generators: set<Entry>, controllers: set<Entry>)
    // monitor
    | MonitorLock(side: Side) | MonitorRead(side: Side)

  /** Entries created, handed to the stop routine, and let go without it; and whether `close` has emptied the maps. */
  datatype History = History(created: nat, stopCalls: seq<Entry>, dropped: set<Entry>, swapped: bool)

  datatype Layer = Layer(
    table: map<Slot, Entry>,
    owner: map<Lock, Tid>,
    threads: map<Tid, Pc>,
    closing: bool,
    history: History)

  /**
   `Fail` is a process that cannot be launched, `Take` and `Drop` are the lock
   attempts of a scoped lock on two mutexes, `Pick` chooses the entry that `close`
   stops next.
   */
  datatype Step =
    | Start(t: Tid, op: Operation) | Run(t: Tid) | Fail(t: Tid)
    | Take(t: Tid, l: Lock) | Drop(t: Tid, l: Lock) | Pick(t: Tid, e: Entry)

  const START: Layer := Layer(map[], map[], map[], false, History(0, [], {}, false))

  const OPS: set<Lock> := {Op(Controllers), Op(Generators)}
  const ALL: set<Lock> := {Op(Controllers), Op(Generators), Map(Controllers), Map(Generators)}

  // ---------------------------------------------------------------------
  // Steps
  // ---------------------------------------------------------------------

  function PcOf(s: Layer, t: Tid): Pc { if t in s.threads then s.threads[t] else Idle }

  function First(op: Operation): Pc {
    match op
    case Load(call) => LoadLock(call)
    case Unload(call) => UnloadLock(call)
    case Close => CloseFlag
    case Monitor(side) => MonitorLock(side)
  }

  /** The mutex a thread is about to take, if any. */
  function Wants(pc: Pc): Option<Lock> {
    match pc
    case LoadLock(call) => Some(Op(call.slot.side))
    case UnloadLock(call) => Some(Op(call.slot.side))
    case LoadMapLock(call) => Some(Map(call.slot.side))
    case LoadMapRelock(call, _) => Some(Map(call.slot.side))
    case UnloadMapLock(call) => Some(Map(call.slot.side))
    case MonitorLock(side) => Some(Map(side))
    case _ => None
  }

  /** The mutexes a thread releases with its next step. */
  function Frees(pc: Pc): set<Lock> {
    match pc
    case LoadFind(call) => {Map(call.slot.side)}
    case LoadEmplace(call, _) => {Map(call.slot.side)}
    case UnloadFind(call) => {Map(call.slot.side)}
    case MonitorRead(side) => {Map(side)}
    case OpUnlock(side) => {Op(side)}
    case CloseUnlock(_, _) => ALL
    case _ => {}
  }

  /** Only controllers can be external. */
  predicate Callable(op: Operation) {
    (op.Load? || op.Unload?) && op.call.external ==> op.call.slot.side == Controllers
  }

  predicate Enabled(s: Layer, step: Step) {
    var pc := PcOf(s, step.t);
    match step
    case Start(t, op) => pc.Idle? && Callable(op)
    case Run(t) =>
      && !pc.Idle?
      && (Wants(pc).Some? ==> Wants(pc).value !in s.owner)
      && (pc.CloseLocking? ==> pc.held == ALL)
      && (pc.CloseStop? ==> pc.generators == {} && pc.controllers == {})
    case Fail(t) => pc.LoadCreate? && !pc.call.external
    case Take(t, l) => pc.CloseLocking? && l !in s.owner && l !in pc.held && (l.Map? ==> OPS <= pc.held)
    case Drop(t, l) => pc.CloseLocking? && l in pc.held && (l.Op? ==> !(OPS <= pc.held)) && pc.held != ALL
    case Pick(t, e) => pc.CloseStop? && (e in pc.generators || (pc.generators == {} && e in pc.controllers))
  }

  function Goto(s: Layer, t: Tid, pc: Pc): Layer { s.(threads := s.threads[t := pc]) }

  function EntriesOf(table: map<Slot, Entry>, side: Side): set<Entry> {
    set slot | slot in table && slot.side == side :: table[slot]
  }

  /** An external unload refuses an entry with a process. */
  predicate Unloadable(table: map<Slot, Entry>, call: Call) {
    call.slot in table && (call.external ==> table[call.slot].external)
  }

  function NextPc(s: Layer, pc: Pc): Pc {
    match pc
    case Idle => Idle
    case LoadLock(call) => LoadCheck(call)
    case LoadCheck(call) => if s.closing then OpUnlock(call.slot.side) else LoadMapLock(call)
    case LoadMapLock(call) => LoadFind(call)
    case LoadFind(call) => if call.slot in s.table then OpUnlock(call.slot.side) else LoadCreate(call)
    case LoadCreate(call) => LoadMapRelock(call, Entry(s.history.created, call.external))
    case LoadMapRelock(call, e) => LoadEmplace(call, e)
    case LoadEmplace(call, _) => OpUnlock(call.slot.side)
    case UnloadLock(call) => UnloadMapLock(call)
    case UnloadMapLock(call) => UnloadFind(call)
    case UnloadFind(call) =>
      if !Unloadable(s.table, call) || call.external then OpUnlock(call.slot.side)
      else UnloadStop(call.slot.side, s.table[call.slot])
    case UnloadStop(side, e) => UnloadStopping(side, e)
    case UnloadStopping(side, _) => OpUnlock(side)
    case OpUnlock(_) => Idle
    case CloseFlag => CloseLocking({})
    case CloseLocking(_) => CloseUnlock(EntriesOf(s.table, Generators), EntriesOf(s.table, Controllers))
    case CloseUnlock(generators, controllers) => CloseStop(generators, controllers)
    case CloseStop(_, _) => Idle
    case CloseStopping(_, generators, controllers) => CloseStop(generators, controllers)
    case MonitorLock(side) => MonitorRead(side)
    case MonitorRead(_) => Idle
  }

  /** `emplace` inserts only if the name is absent; an erased entry leaves the map. */
  function TableAfter(s: Layer, pc: Pc): map<Slot, Entry> {
    match pc
    case LoadEmplace(call, e) => if call.slot in s.table then s.table else s.table[call.slot := e]
    case UnloadFind(call) => if Unloadable(s.table, call) then s.table - {call.slot} else s.table
    case CloseLocking(_) => map[]
    case _ => s.table
  }

  function HistoryAfter(s: Layer, pc: Pc): History {
    match pc
    case LoadCreate(_) => s.history.(created := s.history.created + 1)
    case LoadEmplace(call, e) =>
      if call.slot in s.table then s.history.(dropped := s.history.dropped + {e}) else s.history
    case UnloadFind(call) =>
      if call.external && Unloadable(s.table, call)
      then s.history.(dropped := s.history.dropped + {s.table[call.slot]}) else s.history
    case UnloadStop(_, e) => s.history.(stopCalls := s.history.stopCalls + [e])
    case CloseLocking(_) => s.history.(swapped := true)
    case _ => s.history
  }

  function RunStep(s: Layer, t: Tid): Layer {
    var pc := PcOf(s, t);
    Layer(TableAfter(s, pc),
          if Wants(pc).Some? then s.owner[Wants(pc).value := t] else s.owner - Frees(pc),
          s.threads[t := NextPc(s, pc)],
          s.closing || pc.CloseFlag?,
          HistoryAfter(s, pc))
  }

  function Apply(s: Layer, step: Step): Layer
    requires Enabled(s, step)
  {
    match step
    case Start(t, op) => Goto(s, t, First(op))
    case Run(t) => RunStep(s, t)
    case Fail(t) => Goto(s, t, OpUnlock(PcOf(s, t).call.slot.side))
    case Take(t, l) => Goto(s.(owner := s.owner[l := t]), t, CloseLocking(PcOf(s, t).held + {l}))
    case Drop(t, l) => Goto(s.(owner := s.owner - {l}), t, CloseLocking(PcOf(s, t).held - {l}))
    case Pick(t, e) =>
      var pc := PcOf(s, t);
      Goto(s.(history := s.history.(stopCalls := s.history.stopCalls + [e])), t,
           CloseStopping(e, pc.generators - {e}, pc.controllers - {e}))
  }

  ghost predicate ValidRun(s: Layer, steps: seq<Step>)
    decreases |steps|
  {
    steps == [] || (Enabled(s, steps[0]) && ValidRun(Apply(s, steps[0]), steps[1..]))
  }

  ghost function After(s: Layer, steps: seq<Step>): Layer
    requires ValidRun(s, steps)
    decreases |steps|
  {
    if steps == [] then s else After(Apply(s, steps[0]), steps[1..])
  }

  ghost predicate Reachable(s: Layer) {
    exists steps: seq<Step> :: ValidRun(START, steps) && s == After(START, steps)
  }

  // ---------------------------------------------------------------------
  // Mutual exclusion
  // ---------------------------------------------------------------------

  function Holding(pc: Pc): set<Lock> {
    match pc
    case Idle | LoadLock(_) | UnloadLock(_) | CloseFlag | CloseStop(_, _) | CloseStopping(_, _, _) | MonitorLock(_) =>
        {}
    case LoadCheck(call) => {Op(call.slot.side)}
    case LoadMapLock(call) => {Op(call.slot.side)}
    case LoadFind(call) => {Op(call.slot.side), Map(call.slot.side)}
    case LoadCreate(call) => {Op(call.slot.side)}
    case LoadMapRelock(call, _) => {Op(call.slot.side)}
    case LoadEmplace(call, _) => {Op(call.slot.side), Map(call.slot.side)}
    case UnloadMapLock(call) => {Op(call.slot.side)}
    case UnloadFind(call) => {Op(call.slot.side), Map(call.slot.side)}
    case UnloadStop(side, _) => {Op(side)}
    case UnloadStopping(side, _) => {Op(side)}
    case OpUnlock(side) => {Op(side)}
    case CloseLocking(held) => held
    case CloseUnlock(_, _) => ALL
    case MonitorRead(side) => {Map(side)}
  }

  /** Each mutex is owned by exactly the thread whose program counter holds it. */
  ghost predicate LocksFit(owner: map<Lock, Tid>, threads: map<Tid, Pc>) {
    && (forall t, l :: t in threads && l in Holding(threads[t]) ==> l in owner && owner[l] == t)
    && (forall l :: l in owner ==> owner[l] in threads && l in Holding(threads[owner[l]]))
  }

  lemma KeepLocks(owner: map<Lock, Tid>, threads: map<Tid, Pc>, t: Tid, before: Pc, after: Pc)
    requires LocksFit(owner, threads) && before == (if t in threads then threads[t] else Idle)
    requires Holding(after) == Holding(before)
    ensures LocksFit(owner, threads[t := after])
  {
  }

  lemma AcquireLock(owner: map<Lock, Tid>, threads: map<Tid, Pc>, t: Tid, after: Pc, l: Lock)
    requires LocksFit(owner, threads) && t in threads && l !in owner
    requires Holding(after) == Holding(threads[t]) + {l}
    ensures LocksFit(owner[l := t], threads[t := after])
  {
  }

  lemma ReleaseLocks(owner: map<Lock, Tid>, threads: map<Tid, Pc>, t: Tid, after: Pc, ls: set<Lock>)
    requires LocksFit(owner, threads) && t in threads && ls <= Holding(threads[t])
    requires Holding(after) == Holding(threads[t]) - ls
    ensures LocksFit(owner - ls, threads[t := after])
  {
    forall t', l | t' in threads && t' != t && l in Holding(threads[t'])
      ensures l !in ls
    {
      assert owner[l] == t';
    }
  }

  /** What running a program counter does to the thread's mutexes. */
  lemma RunHolds(s: Layer, pc: Pc)
    requires pc.CloseLocking? ==> pc.held == ALL
    ensures Frees(pc) <= Holding(pc)
    ensures Wants(pc).Some? ==> Holding(NextPc(s, pc)) == Holding(pc) + {Wants(pc).value}
    ensures Wants(pc).None? ==> Holding(NextPc(s, pc)) == Holding(pc) - Frees(pc)
  {
  }

  lemma RunKeepsLocks(s: Layer, t: Tid)
    requires LocksFit(s.owner, s.threads) && Enabled(s, Run(t))
    ensures LocksFit(RunStep(s, t).owner, RunStep(s, t).threads)
  {
    var pc := s.threads[t];
    RunHolds(s, pc);
    if Wants(pc).Some? {
      AcquireLock(s.owner, s.threads, t, NextPc(s, pc), Wants(pc).value);
    } else {
      ReleaseLocks(s.owner, s.threads, t, NextPc(s, pc), Frees(pc));
    }
  }

  lemma StepKeepsLocks(s: Layer, step: Step)
    requires LocksFit(s.owner, s.threads) && Enabled(s, step)
    ensures LocksFit(Apply(s, step).owner, Apply(s, step).threads)
  {
    match step
    case Start(t, op) => KeepLocks(s.owner, s.threads, t, Idle, First(op));
    case Run(t) => RunKeepsLocks(s, t);
    case Fail(t) => KeepLocks(s.owner, s.threads, t, s.threads[t], OpUnlock(s.threads[t].call.slot.side));
    case Take(t, l) => AcquireLock(s.owner, s.threads, t, CloseLocking(s.threads[t].held + {l}), l);
    case Drop(t, l) => ReleaseLocks(s.owner, s.threads, t, CloseLocking(s.threads[t].held - {l}), {l});
    case Pick(t, e) => KeepLocks(s.owner, s.threads, t, s.threads[t], Apply(s, step).threads[t]);
  }

  // ---------------------------------------------------------------------
  // Where every entry is
  // ---------------------------------------------------------------------

  datatype Place = Loading(t: Tid) | Mapped(slot: Slot) | Extracted(t: Tid) | Stopping(t: Tid) | Stopped | LetGo

  predicate ByThread(p: Place) { p.Loading? || p.Extracted? || p.Stopping? }

  /** Where a thread's program counter says an entry is, if it holds it. */
  function PlaceIn(t: Tid, pc: Pc, e: Entry): Option<Place> {
    match pc
    case LoadMapRelock(_, x) => if x == e then Some(Loading(t)) else None
    case LoadEmplace(_, x) => if x == e then Some(Loading(t)) else None
    case UnloadStop(_, x) => if x == e then Some(Extracted(t)) else None
    case UnloadStopping(_, x) => if x == e then Some(Stopping(t)) else None
    case CloseUnlock(generators, controllers) =>
      if e in generators || e in controllers then Some(Extracted(t)) else None
    case CloseStop(generators, controllers) => if e in generators || e in controllers then Some(Extracted(t)) else None
    case CloseStopping(x, generators, controllers) =>
      if x == e then Some(Stopping(t)) else if e in generators || e in controllers then Some(Extracted(t)) else None
    case _ => None
  }

  ghost predicate TableFits(table: map<Slot, Entry>, place: map<Entry, Place>) {
    && (forall slot :: slot in table ==> table[slot] in place && place[table[slot]] == Mapped(slot))
    && (forall e :: e in place && place[e].Mapped? ==> place[e].slot in table && table[place[e].slot] == e)
  }

  ghost predicate ThreadsFit(threads: map<Tid, Pc>, place: map<Entry, Place>) {
    && (forall t, e :: t in threads && PlaceIn(t, threads[t], e).Some? ==>
        e in place && place[e] == PlaceIn(t, threads[t], e).value)
    && (forall e :: e in place && ByThread(place[e]) ==>
          place[e].t in threads && PlaceIn(place[e].t, threads[place[e].t], e) == Some(place[e]))
  }

  ghost predicate Distinct(log: seq<Entry>) { forall i, j :: 0 <= i < j < |log| ==> log[i] != log[j] }

  ghost predicate HistoryFits(h: History, place: map<Entry, Place>) {
    && (forall e :: e in place ==> e.id < h.created)
    && (forall id: nat :: id < h.created ==> (Entry(id, true) in place <==> Entry(id, false) !in place))
    && (forall e :: e in h.stopCalls <==> e in place && (place[e].Stopping? || place[e].Stopped?))
    && Distinct(h.stopCalls)
    && (forall e :: e in h.dropped <==> e in place && place[e].LetGo?)
    && (forall e :: e in h.dropped ==> e.external)
  }

  ghost predicate PlacesFit(s: Layer, place: map<Entry, Place>) {
    TableFits(s.table, place) && ThreadsFit(s.threads, place) && HistoryFits(s.history, place)
  }

  /** A thread moves on and the entries it holds do not. */
  lemma ThreadKeeps(threads: map<Tid, Pc>, place: map<Entry, Place>, t: Tid, before: Pc, after: Pc)
    requires ThreadsFit(threads, place) && before == (if t in threads then threads[t] else Idle)
    requires forall e :: PlaceIn(t, after, e) == PlaceIn(t, before, e)
    ensures ThreadsFit(threads[t := after], place)
  {
  }

  /** A thread moves on and one entry, its own or nobody's, moves to a new place. */
  lemma ThreadMoves(threads: map<Tid, Pc>, place: map<Entry, Place>, t: Tid, after: Pc, e: Entry, p: Place)
    requires ThreadsFit(threads, place) && t in threads
    requires e in place && ByThread(place[e]) ==> place[e].t == t
    requires forall x :: x != e ==> PlaceIn(t, after, x) == PlaceIn(t, threads[t], x)
    requires PlaceIn(t, after, e) == if ByThread(p) then Some(p) else None
    requires ByThread(p) ==> p.t == t
    ensures ThreadsFit(threads[t := after], place[e := p])
  {
  }

  lemma TableUntouched(table: map<Slot, Entry>, place: map<Entry, Place>, e: Entry, p: Place)
    requires TableFits(table, place) && !p.Mapped? && (e in place ==> !place[e].Mapped?)
    ensures TableFits(table, place[e := p])
  {
  }

  lemma TableGains(table: map<Slot, Entry>, place: map<Entry, Place>, slot: Slot, e: Entry)
    requires TableFits(table, place) && slot !in table && (e in place ==> !place[e].Mapped?)
    ensures TableFits(table[slot := e], place[e := Mapped(slot)])
  {
  }

  lemma TableLoses(table: map<Slot, Entry>, place: map<Entry, Place>, slot: Slot, p: Place)
    requires TableFits(table, place) && slot in table && !p.Mapped?
    ensures TableFits(table - {slot}, place[table[slot] := p])
  {
  }

  lemma HistoryCreates(h: History, place: map<Entry, Place>, e: Entry, p: Place)
    requires HistoryFits(h, place) && e.id == h.created && p.Loading?
    ensures HistoryFits(h.(created := h.created + 1), place[e := p])
  {
  }

  lemma HistoryUntouched(h: History, place: map<Entry, Place>, e: Entry, p: Place)
    requires HistoryFits(h, place) && e in place
    requires (place[e].Stopping? || place[e].Stopped?) <==> (p.Stopping? || p.Stopped?)
    requires place[e].LetGo? <==> p.LetGo?
    ensures HistoryFits(h, place[e := p])
  {
  }

  lemma HistoryStops(h: History, place: map<Entry, Place>, e: Entry, p: Place)
    requires HistoryFits(h, place) && e in place && place[e].Extracted? && p.Stopping?
    ensures HistoryFits(h.(stopCalls := h.stopCalls + [e]), place[e := p])
  {
  }

  lemma HistoryDrops(h: History, place: map<Entry, Place>, e: Entry)
    requires HistoryFits(h, place) && e in place && place[e].Mapped? && e.external
    ensures HistoryFits(h.(dropped := h.dropped + {e}), place[e := LetGo])
  {
  }

  // -- Steps that move an entry

  lemma CreateKeepsPlaces(s: Layer, place: map<Entry, Place>, t: Tid)
    requires PlacesFit(s, place) && t in s.threads && s.threads[t].LoadCreate?
    ensures PlacesFit(RunStep(s, t), place[Entry(s.history.created, s.threads[t].call.external) := Loading(t)])
  {
    var e := Entry(s.history.created, s.threads[t].call.external);
    TableUntouched(s.table, place, e, Loading(t));
    ThreadMoves(s.threads, place, t, NextPc(s, s.threads[t]), e, Loading(t));
    HistoryCreates(s.history, place, e, Loading(t));
  }

  lemma EmplaceKeepsPlaces(s: Layer, place: map<Entry, Place>, t: Tid)
    requires PlacesFit(s, place) && t in s.threads && s.threads[t].LoadEmplace? && s.threads[t].call.slot !in s.table
    ensures PlacesFit(RunStep(s, t), place[s.threads[t].entry := Mapped(s.threads[t].call.slot)])
  {
    var e, slot := s.threads[t].entry, s.threads[t].call.slot;
    assert PlaceIn(t, s.threads[t], e) == Some(Loading(t));
    TableGains(s.table, place, slot, e);
    ThreadMoves(s.threads, place, t, NextPc(s, s.threads[t]), e, Mapped(slot));
    HistoryUntouched(s.history, place, e, Mapped(slot));
  }

  lemma UnloadKeepsPlaces(s: Layer, place: map<Entry, Place>, t: Tid)
    requires PlacesFit(s, place) && t in s.threads && s.threads[t].UnloadFind? && Unloadable(s.table, s.threads[t].call)
    ensures var call := s.threads[t].call;
      PlacesFit(RunStep(s, t), place[s.table[call.slot] := if call.external then LetGo else Extracted(t)])
  {
    var call := s.threads[t].call;
    var e := s.table[call.slot];
    var p := if call.external then LetGo else Extracted(t);
    assert place[e] == Mapped(call.slot);
    TableLoses(s.table, place, call.slot, p);
    ThreadMoves(s.threads, place, t, NextPc(s, s.threads[t]), e, p);
    if call.external {
      HistoryDrops(s.history, place, e);
    } else {
      HistoryUntouched(s.history, place, e, p);
    }
  }

  lemma StopKeepsPlaces(s: Layer, place: map<Entry, Place>, t: Tid)
    requires PlacesFit(s, place) && t in s.threads && s.threads[t].UnloadStop?
    ensures PlacesFit(RunStep(s, t), place[s.threads[t].entry := Stopping(t)])
  {
    var e := s.threads[t].entry;
    assert PlaceIn(t, s.threads[t], e) == Some(Extracted(t));
    TableUntouched(s.table, place, e, Stopping(t));
    ThreadMoves(s.threads, place, t, NextPc(s, s.threads[t]), e, Stopping(t));
    HistoryStops(s.history, place, e, Stopping(t));
  }

  lemma PickPlaces(t: Tid, generators: set<Entry>, controllers: set<Entry>, e: Entry, x: Entry)
    requires e in generators || e in controllers
    ensures PlaceIn(t, CloseStop(generators, controllers), e) == Some(Extracted(t))
    ensures PlaceIn(t, CloseStopping(e, generators - {e}, controllers - {e}), e) == Some(Stopping(t))
    ensures x != e ==>
              PlaceIn(t, CloseStopping(e, generators - {e}, controllers - {e}), x)
                  == PlaceIn(t, CloseStop(generators, controllers), x)
  {
  }

  lemma PickKeepsPlaces(s: Layer, place: map<Entry, Place>, t: Tid, e: Entry)
    requires PlacesFit(s, place) && t in s.threads && s.threads[t].CloseStop?
    requires e in s.threads[t].generators || e in s.threads[t].controllers
    ensures var g, c := s.threads[t].generators, s.threads[t].controllers;
      && TableFits(s.table, place[e := Stopping(t)])
      && ThreadsFit(s.threads[t := CloseStopping(e, g - {e}, c - {e})], place[e := Stopping(t)])
      && HistoryFits(s.history.(stopCalls := s.history.stopCalls + [e]), place[e := Stopping(t)])
  {
    var g, c := s.threads[t].generators, s.threads[t].controllers;
    forall x {
      PickPlaces(t, g, c, e, x);
    }
    assert PlaceIn(t, s.threads[t], e) == Some(Extracted(t));
    TableUntouched(s.table, place, e, Stopping(t));
    ThreadMoves(s.threads, place, t, CloseStopping(e, g - {e}, c - {e}), e, Stopping(t));
    HistoryStops(s.history, place, e, Stopping(t));
  }

  lemma StoppedKeepsPlaces(s: Layer, place: map<Entry, Place>, t: Tid)
    requires PlacesFit(s, place) && t in s.threads
    requires var pc := s.threads[t];
      pc.UnloadStopping? || (pc.CloseStopping? && pc.entry !in pc.generators + pc.controllers)
    ensures PlacesFit(RunStep(s, t), place[s.threads[t].entry := Stopped])
  {
    var e := s.threads[t].entry;
    assert PlaceIn(t, s.threads[t], e) == Some(Stopping(t));
    TableUntouched(s.table, place, e, Stopped);
    ThreadMoves(s.threads, place, t, NextPc(s, s.threads[t]), e, Stopped);
    HistoryUntouched(s.history, place, e, Stopped);
  }

  /** The swap moves every mapped entry into the closing thread's hands at once. */
  ghost function Swapped(place: map<Entry, Place>, t: Tid): map<Entry, Place> {
    map e | e in place :: if place[e].Mapped? then Extracted(t) else place[e]
  }

  lemma SwapTakes(table: map<Slot, Entry>, place: map<Entry, Place>, e: Entry)
    requires TableFits(table, place)
    ensures e in EntriesOf(table, Generators) || e in EntriesOf(table, Controllers) <==> e in place && place[e].Mapped?
  {
  }

  lemma SwapKeepsThreads(threads: map<Tid, Pc>, place: map<Entry, Place>, t: Tid, after: Pc)
    requires ThreadsFit(threads, place) && t in threads
    requires forall e :: PlaceIn(t, threads[t], e) == None
    requires forall e :: PlaceIn(t, after, e) == if e in place && place[e].Mapped? then Some(Extracted(t)) else None
    ensures ThreadsFit(threads[t := after], Swapped(place, t))
  {
  }

  lemma SwapKeepsHistory(h: History, place: map<Entry, Place>, t: Tid)
    requires HistoryFits(h, place)
    ensures HistoryFits(h.(swapped := true), Swapped(place, t))
  {
  }

  lemma SwapKeepsPlaces(s: Layer, place: map<Entry, Place>, t: Tid)
    requires PlacesFit(s, place) && t in s.threads && s.threads[t].CloseLocking?
    ensures PlacesFit(RunStep(s, t), Swapped(place, t))
  {
    var after := NextPc(s, s.threads[t]);
    forall e
      ensures PlaceIn(t, after, e) == if e in place && place[e].Mapped? then Some(Extracted(t)) else None
    {
      SwapTakes(s.table, place, e);
    }
    SwapKeepsThreads(s.threads, place, t, after);
    SwapKeepsHistory(s.history, place, t);
  }
}
