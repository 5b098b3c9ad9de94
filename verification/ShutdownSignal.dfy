/**
 The signal-to-thread shutdown protocol: any number of signal handlers, the
 worker thread that drains the pipe, and the owner that constructs and destroys
 the object, interleaved one atomic access at a time.

 A run is a sequence of steps from `Init`. Every choice the operating system or
 the callback makes is part of the step, so a theorem over all runs covers them.
 */
module ShutdownSignal {

  type HandlerId = nat

  /** `handlers_` is a 32-bit unsigned counter. */
  const COUNTER_MODULUS: nat := 0x1_0000_0000

  /** The worker reads at most this many bytes at a time. */
  const READ_SIZE: nat := 64

  /** Where a handler is: about to count itself in, to load the descriptor, to write, or to count itself out. */
  datatype HandlerPc = Arrived | Counted | Loaded(valid: bool) | Notified

  datatype WorkerPc = NotStarted | LoopTest | Polling | Reading | PendingTest | StopTest | Calling | Exited

  /** The constructor up to `Live`, then the destructor; `ReleaseStore` to `Gone` is the release both share. */
  datatype OwnerPc =
    | Publish | InstallInt | InstallTerm | UndoInt
    | Live
    | StoreStop | Join | StoreInvalid | RestoreInt | RestoreTerm
    | ReleaseStore | WaitZero | CloseRead | CloseWrite | Gone

  /** The static atomics, `stopping_`, and the signal actions that point at the handler. */
  datatype Shared = Shared(fdValid: bool, counter: nat, stopping: bool, onInt: bool, onTerm: bool)

  datatype Pipe = Pipe(capacity: nat, bytes: nat, readOpen: bool, writeOpen: bool)

  datatype Worker = Worker(pc: WorkerPc, pending: bool)

  /**
   What has happened so far: a handler wrote or found the pipe full, a write hit
   a closed pipe, and the results the callback has returned, in order.
   */
  datatype Past = Past(signalled: bool, misused: bool, results: seq<bool>)

  datatype State = State(
    shared: Shared,
    pipe: Pipe,
    handlers: map<HandlerId, HandlerPc>,
    worker: Worker,
    owner: OwnerPc,
    past: Past)

  datatype WriteResult = Written | Full | Interrupted

  datatype Step =
    | OwnerStep(succeeds: bool)
    | Start
    | Arrive(h: HandlerId)
    | HandlerStep(h: HandlerId, result: WriteResult)
    | WorkerStep(positive: bool)

  function Init(capacity: nat): State {
    State(Shared(false, 0, false, false, false), Pipe(capacity, 0, true, true), map[], Worker(NotStarted, false),
        Publish, Past(false, false, []))
  }

  // ---------------------------------------------------------------------
  // Steps
  // ---------------------------------------------------------------------

  predicate CountedIn(pc: HandlerPc) { pc != Arrived }

  function InFlight(handlers: map<HandlerId, HandlerPc>): set<HandlerId> {
    set h | h in handlers && CountedIn(handlers[h])
  }

  predicate Accepted(s: State) { s.past.results != [] && s.past.results[|s.past.results| - 1] }

  predicate Joinable(s: State) { s.worker.pc != NotStarted }

  predicate Enabled(s: State, step: Step) {
    match step
    case OwnerStep(_) =>
      && s.owner != Gone
      && (s.owner == Join ==> (s.worker.pc.NotStarted? || s.worker.pc.Exited?))
      && (s.owner == WaitZero ==> s.shared.counter == 0)
    case Start => s.owner == Live
    case Arrive(h) => (s.shared.onInt || s.shared.onTerm) && h !in s.handlers
    case HandlerStep(h, result) =>
      && h in s.handlers
      && (s.handlers[h] == Arrived ==> |InFlight(s.handlers)| + 1 < COUNTER_MODULUS)
      && (s.handlers[h] == Loaded(true) ==>
            && (result == Written ==> s.pipe.bytes < s.pipe.capacity)
            && (result == Full ==> s.pipe.bytes == s.pipe.capacity))
    case WorkerStep(positive) =>
      && (!s.worker.pc.NotStarted? && !s.worker.pc.Exited?)
      && (s.worker.pc == Polling && positive ==> s.pipe.bytes > 0)
  }

  function OwnerApply(s: State, succeeds: bool): State {
    match s.owner
    case Publish =>
      if s.shared.fdValid then s.(owner := CloseRead) else s.(shared := s.shared.(fdValid := true), owner := InstallInt)
    case InstallInt =>
      if succeeds then s.(shared := s.shared.(onInt := true), owner := InstallTerm) else s.(owner := ReleaseStore)
    case InstallTerm =>
      if succeeds then s.(shared := s.shared.(onTerm := true), owner := Live) else s.(owner := UndoInt)
    case UndoInt => s.(shared := s.shared.(onInt := false), owner := ReleaseStore)
    case Live => s.(owner := StoreStop)
    case StoreStop => s.(shared := s.shared.(stopping := true), owner := Join)
    case Join => s.(owner := StoreInvalid)
    case StoreInvalid => s.(shared := s.shared.(fdValid := false), owner := RestoreInt)
    case RestoreInt => s.(shared := s.shared.(onInt := false), owner := RestoreTerm)
    case RestoreTerm => s.(shared := s.shared.(onTerm := false), owner := ReleaseStore)
    case ReleaseStore => s.(shared := s.shared.(fdValid := false), owner := WaitZero)
    case WaitZero => s.(owner := CloseRead)
    case CloseRead => s.(pipe := s.pipe.(readOpen := false), owner := CloseWrite)
    case CloseWrite => s.(pipe := s.pipe.(writeOpen := false), owner := Gone)
    case Gone => s
  }

  // Increment and decrement of the counter wrap around.
  function Up(counter: nat): nat { (counter + 1) % COUNTER_MODULUS }
  function Down(counter: nat): nat { (counter + COUNTER_MODULUS - 1) % COUNTER_MODULUS }

  /** One attempt to write a byte through a valid descriptor. */
  function WriteAttempt(s: State, h: HandlerId, result: WriteResult): State {
    if !(s.pipe.readOpen && s.pipe.writeOpen) then
      s.(past := s.past.(misused := true), handlers := s.handlers[h := Notified])
    else match result
      case Interrupted => s
      case Full => s.(past := s.past.(signalled := true), handlers := s.handlers[h := Notified])
      case Written =>
        s.(past := s.past.(signalled := true), pipe := s.pipe.(bytes := s.pipe.bytes + 1),
            handlers := s.handlers[h := Notified])
  }

  function HandlerApply(s: State, h: HandlerId, result: WriteResult): State
    requires h in s.handlers
  {
    match s.handlers[h]
    case Arrived =>
      s.(shared := s.shared.(counter := Up(s.shared.counter)), handlers := s.handlers[h := Counted])
    case Counted => s.(handlers := s.handlers[h := Loaded(s.shared.fdValid)])
    case Loaded(valid) => if valid then WriteAttempt(s, h, result) else s.(handlers := s.handlers[h := Notified])
    case Notified =>
      s.(shared := s.shared.(counter := Down(s.shared.counter)), handlers := s.handlers - {h})
  }

  function Drained(pipe: Pipe): Pipe {
    pipe.(bytes := if pipe.bytes < READ_SIZE then 0 else pipe.bytes - READ_SIZE)
  }

  function WorkerApply(s: State, positive: bool): State {
    match s.worker.pc
    case NotStarted => s
    case LoopTest => s.(worker := s.worker.(pc := if s.shared.stopping then Exited else Polling))
    case Polling => s.(worker := s.worker.(pc := if positive then Reading else PendingTest))
    case Reading => s.(pipe := Drained(s.pipe), worker := Worker(PendingTest, s.worker.pending || s.pipe.bytes > 0))
    case PendingTest => s.(worker := s.worker.(pc := if s.worker.pending then StopTest else LoopTest))
    case StopTest => s.(worker := s.worker.(pc := if s.shared.stopping then LoopTest else Calling))
    case Calling =>
      s.(past := s.past.(results := s.past.results + [positive]),
          worker := s.worker.(pc := if positive then Exited else LoopTest))
    case Exited => s
  }

  function Apply(s: State, step: Step): State
    requires Enabled(s, step)
  {
    match step
    case OwnerStep(succeeds) => OwnerApply(s, succeeds)
    case Start => if Joinable(s) then s else s.(worker := s.worker.(pc := LoopTest))
    case Arrive(h) => s.(handlers := s.handlers[h := Arrived])
    case HandlerStep(h, result) => HandlerApply(s, h, result)
    case WorkerStep(positive) => WorkerApply(s, positive)
  }

  /** The steps can be taken one after the other from s. */
  ghost predicate ValidRun(s: State, steps: seq<Step>)
    decreases |steps|
  {
    steps == [] || (Enabled(s, steps[0]) && ValidRun(Apply(s, steps[0]), steps[1..]))
  }

  ghost function After(s: State, steps: seq<Step>): State
    requires ValidRun(s, steps)
    decreases |steps|
  {
    if steps == [] then s else After(Apply(s, steps[0]), steps[1..])
  }

  // ---------------------------------------------------------------------
  // The invariant
  // ---------------------------------------------------------------------

  /** The owner can no longer hand out the descriptor. */
  predicate Withdrawn(owner: OwnerPc) {
    (owner.RestoreInt? || owner.RestoreTerm? || owner.WaitZero? || owner.CloseRead? || owner.CloseWrite? || owner.Gone?)
  }

  predicate Closing(owner: OwnerPc) { (owner.CloseRead? || owner.CloseWrite? || owner.Gone?) }

  predicate Joined(owner: OwnerPc) {
    (owner.StoreInvalid? || owner.RestoreInt? || owner.RestoreTerm? || owner.ReleaseStore? || owner.WaitZero?
        || owner.CloseRead? || owner.CloseWrite? || owner.Gone?)
  }

  predicate Releasing(owner: OwnerPc) {
    owner.ReleaseStore? || owner.WaitZero? || owner.CloseRead? || owner.CloseWrite? || owner.Gone?
  }

  predicate Constructing(owner: OwnerPc) {
    owner.Publish? || owner.InstallInt? || owner.InstallTerm? || owner.UndoInt?
  }

  ghost predicate CounterExact(s: State) {
    s.shared.counter == |InFlight(s.handlers)| < COUNTER_MODULUS
  }

  ghost predicate NoneHoldsDescriptor(s: State) {
    forall h :: h in s.handlers ==> s.handlers[h] != Loaded(true)
  }

  ghost predicate PipeOwnership(s: State) {
    && (Withdrawn(s.owner) ==> !s.shared.fdValid)
    && (s.owner == Publish ==> !s.shared.fdValid)
    && (s.shared.onInt ==> !Releasing(s.owner) && s.owner != Publish && s.owner != InstallInt && s.owner != RestoreTerm)
    && (s.shared.onTerm ==> !Releasing(s.owner) && !Constructing(s.owner))
    && (Closing(s.owner) ==> NoneHoldsDescriptor(s))
    && (s.pipe.readOpen <==> (!s.owner.CloseWrite? && !s.owner.Gone?))
    && (s.pipe.writeOpen <==> s.owner != Gone)
    && s.pipe.bytes <= s.pipe.capacity
    && !s.past.misused
  }

  ghost predicate NothingLost(s: State) {
    s.past.signalled ==> s.pipe.bytes > 0 || s.worker.pending || Accepted(s)
  }

  ghost predicate NothingInvented(s: State) {
    s.pipe.bytes > 0 || s.worker.pending || s.past.results != [] ==> s.past.signalled
  }

  ghost predicate CallbackDiscipline(s: State) {
    && (forall i :: 0 <= i < |s.past.results| - 1 ==> !s.past.results[i])
    && (Accepted(s) ==> s.worker.pc == Exited)
    && ((s.worker.pc.StopTest? || s.worker.pc.Calling?) ==> s.worker.pending)
    && (s.worker.pc == Reading ==> s.pipe.bytes > 0)
    && (s.past.results != [] ==> s.worker.pending)
    && (Joined(s.owner) || Constructing(s.owner) ==> (s.worker.pc.NotStarted? || s.worker.pc.Exited?))
  }

  ghost predicate Inv(s: State) {
    && s.pipe.capacity > 0
    && CounterExact(s)
    && PipeOwnership(s)
    && NothingLost(s)
    && NothingInvented(s)
    && CallbackDiscipline(s)
  }

  lemma InitInv(capacity: nat)
    requires capacity > 0
    ensures Inv(Init(capacity))
  {
  }

  // -- Cardinality of the handlers in flight

  lemma CountIn(handlers: map<HandlerId, HandlerPc>, h: HandlerId, pc: HandlerPc)
    requires h in handlers && !CountedIn(handlers[h]) && CountedIn(pc)
    ensures |InFlight(handlers[h := pc])| == |InFlight(handlers)| + 1
  {
    assert InFlight(handlers[h := pc]) == InFlight(handlers) + {h};
  }

  lemma StaysCounted(handlers: map<HandlerId, HandlerPc>, h: HandlerId, pc: HandlerPc)
    requires h in handlers ==> CountedIn(handlers[h]) == CountedIn(pc)
    requires h !in handlers ==> !CountedIn(pc)
    ensures InFlight(handlers[h := pc]) == InFlight(handlers)
  {
  }

  lemma CountOut(handlers: map<HandlerId, HandlerPc>, h: HandlerId)
    requires h in handlers && CountedIn(handlers[h])
    ensures |InFlight(handlers - {h})| == |InFlight(handlers)| - 1
  {
    assert InFlight(handlers - {h}) == InFlight(handlers) - {h};
  }

  // -- Preservation, one kind of step at a time

  lemma OwnerKeepsPipe(s: State, succeeds: bool)
    requires Inv(s) && Enabled(s, OwnerStep(succeeds))
    ensures PipeOwnership(OwnerApply(s, succeeds))
  {
    if s.owner == WaitZero {
      // Nobody is counted in, and only a counted handler holds the descriptor.
      assert forall h :: h in s.handlers ==> h !in InFlight(s.handlers);
    }
  }

  lemma OwnerKeepsRest(s: State, succeeds: bool)
    requires Inv(s) && Enabled(s, OwnerStep(succeeds))
    ensures CounterExact(OwnerApply(s, succeeds))
    ensures NothingLost(OwnerApply(s, succeeds)) && NothingInvented(OwnerApply(s, succeeds))
  {
  }

  lemma OwnerKeepsCallback(s: State, succeeds: bool)
    requires Inv(s) && Enabled(s, OwnerStep(succeeds))
    ensures CallbackDiscipline(OwnerApply(s, succeeds))
  {
  }

  lemma ArriveKeepsInv(s: State, h: HandlerId)
    requires Inv(s) && Enabled(s, Arrive(h))
    ensures Inv(Apply(s, Arrive(h)))
  {
    StaysCounted(s.handlers, h, Arrived);
  }

  lemma CounterArithmetic(counter: nat)
    ensures counter + 1 < COUNTER_MODULUS ==> Up(counter) == counter + 1
    ensures 0 < counter < COUNTER_MODULUS ==> Down(counter) == counter - 1
  {
  }

  lemma HandlerKeepsCounter(s: State, h: HandlerId, result: WriteResult)
    requires Inv(s) && Enabled(s, HandlerStep(h, result))
    ensures CounterExact(HandlerApply(s, h, result))
  {
    CounterArithmetic(s.shared.counter);
    match s.handlers[h]
    case Arrived => CountIn(s.handlers, h, Counted);
    case Counted => StaysCounted(s.handlers, h, Loaded(s.shared.fdValid));
    case Loaded(_) => StaysCounted(s.handlers, h, Notified);
    case Notified => CountOut(s.handlers, h);
  }

  lemma HandlerKeepsPipe(s: State, h: HandlerId, result: WriteResult)
    requires Inv(s) && Enabled(s, HandlerStep(h, result))
    ensures PipeOwnership(HandlerApply(s, h, result))
  {
  }

  lemma HandlerKeepsRest(s: State, h: HandlerId, result: WriteResult)
    requires Inv(s) && Enabled(s, HandlerStep(h, result))
    ensures NothingLost(HandlerApply(s, h, result)) && NothingInvented(HandlerApply(s, h, result))
    ensures CallbackDiscipline(HandlerApply(s, h, result))
  {
  }

  lemma WorkerKeepsPipe(s: State, positive: bool)
    requires Inv(s) && Enabled(s, WorkerStep(positive))
    ensures CounterExact(WorkerApply(s, positive)) && PipeOwnership(WorkerApply(s, positive))
  {
  }

  lemma WorkerKeepsRest(s: State, positive: bool)
    requires Inv(s) && Enabled(s, WorkerStep(positive))
    ensures NothingLost(WorkerApply(s, positive)) && NothingInvented(WorkerApply(s, positive))
    ensures CallbackDiscipline(WorkerApply(s, positive))
  {
  }

  lemma StepKeepsInv(s: State, step: Step)
    requires Inv(s) && Enabled(s, step)
    ensures Inv(Apply(s, step))
  {
    match step
    case OwnerStep(succeeds) =>
      OwnerKeepsPipe(s, succeeds); OwnerKeepsRest(s, succeeds); OwnerKeepsCallback(s, succeeds);
    case Start =>
    case Arrive(h) => ArriveKeepsInv(s, h);
    case HandlerStep(h, result) =>
      HandlerKeepsCounter(s, h, result); HandlerKeepsPipe(s, h, result); HandlerKeepsRest(s, h, result);
    case WorkerStep(positive) => WorkerKeepsPipe(s, positive); WorkerKeepsRest(s, positive);
  }

  lemma {:induction false} RunKeepsInv(s: State, steps: seq<Step>)
    requires Inv(s) && ValidRun(s, steps)
    ensures Inv(After(s, steps))
    decreases |steps|
  {
    if steps != [] {
      StepKeepsInv(s, steps[0]);
      RunKeepsInv(Apply(s, steps[0]), steps[1..]);
    }
  }

  // ---------------------------------------------------------------------
  // Main results, over all runs
  // ---------------------------------------------------------------------

  ghost predicate Reachable(s: State) {
    exists capacity: nat, steps: seq<Step> :: capacity > 0 && ValidRun(Init(capacity), steps)
        && s == After(Init(capacity), steps)
  }

  lemma ReachableInv(s: State)
    requires Reachable(s)
    ensures Inv(s)
  {
    var capacity: nat, steps: seq<Step> :| capacity > 0 && ValidRun(Init(capacity), steps)
        && s == After(Init(capacity), steps);
    InitInv(capacity);
    RunKeepsInv(Init(capacity), steps);
  }

  /**
   No handler ever writes to a closed pipe, in any interleaving. The counter is
   the number of handlers in flight; once the descriptor is withdrawn none can
   pick it up; and once the owner has seen the counter at zero none holds it,
   although handlers may still enter, count themselves in and leave.
   */
  lemma NoWriteAfterClose(s: State)
    requires Reachable(s)
    ensures !s.past.misused
    ensures s.shared.counter == |InFlight(s.handlers)|
    ensures forall h :: h in s.handlers && s.handlers[h] == Loaded(true) ==> s.pipe.readOpen && s.pipe.writeOpen
    ensures Withdrawn(s.owner) ==>
      forall h, result :: Enabled(s, HandlerStep(h, result)) && s.handlers[h] == Counted ==>
        HandlerApply(s, h, result).handlers[h] == Loaded(false)
  {
    ReachableInv(s);
  }

  /** The worker reads only from an open pipe, and takes no step after it was joined. */
  lemma NoReadAfterClose(s: State, positive: bool)
    requires Reachable(s) && Enabled(s, WorkerStep(positive))
    ensures s.pipe.readOpen && !Joined(s.owner)
  {
    ReachableInv(s);
  }

  /**
   No signal is lost or invented: once a handler has written or seen a full pipe,
   a byte is in the pipe, the worker holds it as pending, or the callback has
   accepted; and nothing of the kind happens without such a handler.
   */
  lemma SignalConserved(s: State)
    requires Reachable(s)
    ensures s.past.signalled <==> s.pipe.bytes > 0 || s.worker.pending || Accepted(s)
    ensures s.past.results != [] ==> s.past.signalled
  {
    ReachableInv(s);
  }

  /** The callback returns true at most once, as its last result, and is never entered again after that. */
  lemma CallbackStopsOnceAccepted(s: State, i: nat)
    requires Reachable(s) && i < |s.past.results| && s.past.results[i]
    ensures i == |s.past.results| - 1 && s.worker.pc == Exited
    ensures forall positive :: !Enabled(s, WorkerStep(positive))
  {
    ReachableInv(s);
  }

  lemma StepKeepsAccepted(s: State, step: Step)
    requires Inv(s) && Enabled(s, step) && (Accepted(s) || Joined(s.owner))
    ensures Apply(s, step).past.results == s.past.results
    ensures Accepted(Apply(s, step)) || Joined(Apply(s, step).owner)
  {
  }

  /** After the callback has accepted, or the worker has been joined, no continuation calls it again. */
  lemma {:induction false} NoFurtherCalls(s: State, steps: seq<Step>)
    requires Inv(s) && ValidRun(s, steps) && (Accepted(s) || Joined(s.owner))
    ensures After(s, steps).past.results == s.past.results
    decreases |steps|
  {
    if steps != [] {
      StepKeepsInv(s, steps[0]);
      StepKeepsAccepted(s, steps[0]);
      NoFurtherCalls(Apply(s, steps[0]), steps[1..]);
    }
  }

  // ---------------------------------------------------------------------
  // The destructor's wait ends
  // ---------------------------------------------------------------------

  function StepsLeft(pc: HandlerPc): nat {
    match pc
    case Arrived => 4
    case Counted => 3
    case Loaded(_) => 2
    case Notified => 1
  }

  ghost function Pick(handlers: map<HandlerId, HandlerPc>): HandlerId
    requires handlers != map[]
    ensures Pick(handlers) in handlers
  {
    assert handlers.Keys != {};
    var h :| h in handlers.Keys; h
  }

  /** The own steps all handlers together still have to take, not counting interrupted writes. */
  ghost function TotalLeft(handlers: map<HandlerId, HandlerPc>): nat
    decreases |handlers|
  {
    if handlers == map[] then 0
    else
      var h := Pick(handlers);
      StepsLeft(handlers[h]) + TotalLeft(handlers - {h})
  }

  lemma {:induction false} TotalWithout(handlers: map<HandlerId, HandlerPc>, h: HandlerId)
    requires h in handlers
    ensures TotalLeft(handlers) == StepsLeft(handlers[h]) + TotalLeft(handlers - {h})
    decreases |handlers|
  {
    var k := Pick(handlers);
    if k != h {
      TotalWithout(handlers - {k}, h);
      TotalWithout(handlers - {h}, k);
      assert handlers - {k} - {h} == handlers - {h} - {k};
    }
  }

  lemma TotalMoved(handlers: map<HandlerId, HandlerPc>, h: HandlerId, pc: HandlerPc)
    requires h in handlers
    ensures TotalLeft(handlers[h := pc]) + StepsLeft(handlers[h]) == TotalLeft(handlers) + StepsLeft(pc)
  {
    TotalWithout(handlers, h);
    TotalWithout(handlers[h := pc], h);
    assert handlers[h := pc] - {h} == handlers - {h};
  }

  /** A step by which some handler gets closer to its end. */
  predicate Advances(s: State, step: Step) {
    step.HandlerStep? && step.h in s.handlers && !(s.handlers[step.h] == Loaded(true) && step.result == Interrupted)
  }

  ghost function AdvancesIn(s: State, steps: seq<Step>): nat
    requires ValidRun(s, steps)
    decreases |steps|
  {
    if steps == [] then 0
    else (if Advances(s, steps[0]) then 1 else 0) + AdvancesIn(Apply(s, steps[0]), steps[1..])
  }

  lemma StepLowersTotal(s: State, step: Step)
    requires Inv(s) && Enabled(s, step) && Releasing(s.owner)
    ensures TotalLeft(Apply(s, step).handlers) + (if Advances(s, step) then 1 else 0) <= TotalLeft(s.handlers)
    ensures Releasing(Apply(s, step).owner)
  {
    if step.HandlerStep? {
      var h := step.h;
      match s.handlers[h]
      case Arrived => TotalMoved(s.handlers, h, Counted);
      case Counted => TotalMoved(s.handlers, h, Loaded(s.shared.fdValid));
      case Loaded(_) => TotalMoved(s.handlers, h, Notified);
      case Notified => TotalWithout(s.handlers, h);
    }
  }

  /**
   Once the release has begun no handler can arrive, so the handlers together
   take at most four steps each (interrupted writes aside): every run from there
   has a bounded number of them.
   */
  lemma {:induction false} WaitIsBounded(s: State, steps: seq<Step>)
    requires Inv(s) && ValidRun(s, steps) && Releasing(s.owner)
    ensures AdvancesIn(s, steps) + TotalLeft(After(s, steps).handlers) <= TotalLeft(s.handlers)
    decreases |steps|
  {
    if steps != [] {
      StepKeepsInv(s, steps[0]);
      StepLowersTotal(s, steps[0]);
      WaitIsBounded(Apply(s, steps[0]), steps[1..]);
    }
  }

  /** The wait is over exactly when no handler is in flight; until then some handler can move. */
  lemma WaitEndsWhenDrained(s: State, succeeds: bool)
    requires Reachable(s) && s.owner == WaitZero
    ensures Enabled(s, OwnerStep(succeeds)) <==> InFlight(s.handlers) == {}
    ensures forall h :: !Enabled(s, Arrive(h))
    ensures forall h :: h in InFlight(s.handlers) ==>
        Enabled(s, HandlerStep(h, if s.pipe.bytes < s.pipe.capacity then Written else Full))
  {
    ReachableInv(s);
  }

  // ---------------------------------------------------------------------
  // A pending signal reaches the callback
  // ---------------------------------------------------------------------

  /** Worker steps until the callback returns, for a worker that is not told to stop. */
  function CallDistance(worker: Worker): nat {
    match worker.pc
    case NotStarted => 7
    case Exited => 7
    case Calling => 1
    case StopTest => 2
    case PendingTest => if worker.pending then 3 else 7
    case Reading => 4
    case Polling => 5
    case LoopTest => 6
  }

  /** The poll reports a readable pipe, and no signal cuts it short. */
  predicate Prompt(s: State, step: Step) {
    step.WorkerStep? && s.worker.pc == Polling && s.pipe.bytes > 0 ==> step.positive
  }

  ghost predicate PromptRun(s: State, steps: seq<Step>)
    requires ValidRun(s, steps)
    decreases |steps|
  {
    steps == [] || (Prompt(s, steps[0]) && steps[0] != OwnerStep(true) && steps[0] != OwnerStep(false)
                    && PromptRun(Apply(s, steps[0]), steps[1..]))
  }

  ghost function WorkerStepsIn(steps: seq<Step>): nat {
    if steps == [] then 0 else (if steps[0].WorkerStep? then 1 else 0) + WorkerStepsIn(steps[1..])
  }

  ghost predicate Running(s: State) {
    s.worker.pc != NotStarted && s.worker.pc != Exited && !s.shared.stopping && s.past.signalled
  }

  lemma StepNearsCall(s: State, step: Step)
    requires Inv(s) && Running(s) && Enabled(s, step) && Prompt(s, step) && !step.OwnerStep?
    ensures var t := Apply(s, step);
      || |t.past.results| > |s.past.results|
      || (Running(t) && t.past.results == s.past.results
          && CallDistance(t.worker) + (if step.WorkerStep? then 1 else 0) <= CallDistance(s.worker))
  {
  }

  lemma {:induction false} ResultsOnlyGrow(s: State, steps: seq<Step>)
    requires ValidRun(s, steps)
    ensures |After(s, steps).past.results| >= |s.past.results|
    decreases |steps|
  {
    if steps != [] {
      assert |Apply(s, steps[0]).past.results| >= |s.past.results|;
      ResultsOnlyGrow(Apply(s, steps[0]), steps[1..]);
    }
  }

  lemma {:induction false} SignalReachesCallbackFrom(s: State, steps: seq<Step>)
    requires Inv(s) && Running(s) && ValidRun(s, steps) && PromptRun(s, steps)
    requires WorkerStepsIn(steps) >= CallDistance(s.worker)
    ensures |After(s, steps).past.results| > |s.past.results|
    decreases |steps|
  {
    assert steps != [];
    var t := Apply(s, steps[0]);
    StepKeepsInv(s, steps[0]);
    StepNearsCall(s, steps[0]);
    if |t.past.results| > |s.past.results| {
      ResultsOnlyGrow(t, steps[1..]);
    } else {
      SignalReachesCallbackFrom(t, steps[1..]);
    }
  }

  /**
   Once a signal was delivered, and until the owner begins to shut down, seven
   steps of the started worker always include a return of the callback, whatever
   the handlers do in between.
   */
  lemma SignalReachesCallback(s: State, steps: seq<Step>)
    requires Reachable(s) && Running(s) && ValidRun(s, steps) && PromptRun(s, steps) && WorkerStepsIn(steps) >= 7
    ensures |After(s, steps).past.results| > |s.past.results|
  {
    ReachableInv(s);
    SignalReachesCallbackFrom(s, steps);
  }
}
