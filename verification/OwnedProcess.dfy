/**
 Shutting child processes down: interrupt, terminate, kill, each followed by a
 bounded wait, then let go of whatever still runs.

 What the operating system answers is unknown: each answer is an arbitrary
 function of how many calls have been made. The clock only moves forward, by at
 least the time slept.
 */
module OwnedProcesses {
  datatype Signal = Interrupt | Terminate | Kill

  datatype KillResult = Delivered | NoSuchProcess | Refused

  datatype Answer = Value(value: bool) | Threw

  /** What a shutdown observes and does; `Asked` is the system call that decides whether a process is gone. */
  datatype Event =
    | Asked(p: OwnedProcess, call: nat)
    | Seen(p: OwnedProcess, running: bool)
    | Signalled(p: OwnedProcess, value: Signal)
    | LetGo(p: OwnedProcess)

  const MILLISECOND: nat := 1_000_000
  const POLL: nat := 20 * MILLISECOND
  const PATIENCE: nat := 2000 * MILLISECOND

  class Os {
    const childRuns: nat -> bool
    const childError: nat -> bool
    const killAnswer: nat -> KillResult
    const delay: nat -> nat
    var calls: nat
    var now: int
    var polls: nat
    ghost var log: seq<Event>

    constructor (childRuns: nat -> bool, childError: nat -> bool, killAnswer: nat -> KillResult, delay: nat -> nat,
        now: int)
      ensures log == [] && polls == 0 && this.now == now
    {
      this.childRuns, this.childError, this.killAnswer, this.delay := childRuns, childError, killAnswer, delay;
      this.now, calls, polls, log := now, 0, 0, [];
    }

    method ReadClock() returns (t: int)
      modifies this`calls, this`now
      ensures t == now >= old(now) && calls == old(calls) + 1
    {
      now := now + delay(calls);
      calls := calls + 1;
      t := now;
    }

    method Sleep(duration: nat)
      modifies this`calls, this`now
      ensures now >= old(now) + duration && calls == old(calls) + 1
    {
      now := now + duration + delay(calls);
      calls := calls + 1;
    }
  }

  class OwnedProcess {
    const ownGroup: bool
    var leaderExited: bool
    var finished: bool
    var detached: bool

    /** The process has been seen stopped: the latch that `running` returns. */
    ghost predicate Stopped()
      reads this
    {
      finished || (!ownGroup && leaderExited)
    }

    constructor (ownGroup: bool)
      ensures !Stopped() && !detached
    {
      this.ownGroup := ownGroup;
      leaderExited, finished, detached := false, false, false;
    }

    /** The system's verdict on this process at a call: its group is empty, or its own process has exited. */
    ghost predicate GoneAt(os: Os, call: nat) {
      if ownGroup then os.killAnswer(call) == NoSuchProcess else !os.childRuns(call)
    }

    /** The deciding call, if any, when `running` is asked with the next call numbered `call`. */
    ghost function Question(os: Os, call: nat): seq<Event>
      reads this
    {
      if Stopped() then []
      else if !ownGroup || leaderExited then [Asked(this, call)]
      else if os.childError(call) then [] else [Asked(this, call + 1)]
    }

    /**
     Never true again once it has been false; before that, exactly what the system
     answers. An error throws after the answer has been stored.
     */
    method Running(os: Os) returns (r: Answer)
      modifies this`leaderExited, this`finished, os`calls, os`log
      ensures old(Stopped()) ==> r == Value(false) && Stopped()
      ensures old(finished) || leaderExited == (old(leaderExited) || !os.childRuns(old(os.calls)))
      ensures var c := old(os.calls);
        !old(Stopped()) ==>
          && (r.Threw? <==> !old(leaderExited) && os.childError(c))
          && (!ownGroup ==> Stopped() == !os.childRuns(c) && (r.Value? ==> r.value == os.childRuns(c)))
          && (ownGroup && r.Threw? ==> !Stopped())
          && (ownGroup && r.Value? ==>
                var probe := os.killAnswer(if old(leaderExited) then c else c + 1);
                Stopped() == (probe == NoSuchProcess) && r.value == (probe != NoSuchProcess))
      ensures os.calls >= old(os.calls) && (r.Threw? ==> os.calls > old(os.calls))
      ensures os.log == old(os.log) + old(Question(os, os.calls)) + if r.Value? then [Seen(this, r.value)] else []
    {
      if finished {
        os.log := os.log + [Seen(this, false)];
        return Value(false);
      }
      if !leaderExited {
        var call := os.calls;
        os.calls := call + 1;
        leaderExited := !os.childRuns(call);
        if !ownGroup {
          os.log := os.log + [Asked(this, call)];
        }
        if os.childError(call) {
          return Threw;
        }
      }
      if !ownGroup {
        os.log := os.log + [Seen(this, !leaderExited)];
        return Value(!leaderExited);
      }
      var answer := os.killAnswer(os.calls);
      os.log := os.log + [Asked(this, os.calls)];
      os.calls := os.calls + 1;
      if answer != NoSuchProcess {
        os.log := os.log + [Seen(this, true)];
        return Value(true);
      }
      finished := true;
      os.log := os.log + [Seen(this, false)];
      return Value(false);
    }

    /** False if the system refuses, which the source reports by throwing. A process that has just gone is no error. */
    method SendSignal(value: Signal, os: Os) returns (ok: bool)
      modifies os`calls, os`log
      ensures finished ==> ok && os.log == old(os.log)
      ensures !finished ==> os.log == old(os.log) + [Signalled(this, value)]
      ensures !finished ==> (ok <==> os.killAnswer(old(os.calls)) != Refused)
      ensures os.calls == old(os.calls) + if finished then 0 else 1
    {
      ok := true;
      if !finished {
        os.log := os.log + [Signalled(this, value)];
        ok := os.killAnswer(os.calls) != Refused;
        os.calls := os.calls + 1;
      }
    }

    method Detach(os: Os)
      modifies this`detached, os`log
      ensures detached && os.log == old(os.log) + [LetGo(this)]
    {
      detached := true;
      os.log := os.log + [LetGo(this)];
    }
  }

  // ---------------------------------------------------------------------
  // What a log of a shutdown must satisfy
  // ---------------------------------------------------------------------

  function Before(value: Signal): Signal
    requires value != Interrupt
  {
    if value == Kill then Terminate else Interrupt
  }

  /** Every stronger signal comes after the weaker one to the same process. */
  ghost predicate Escalates(log: seq<Event>) {
    forall k :: 0 <= k < |log| && log[k].Signalled? && log[k].value != Interrupt ==>
      Signalled(log[k].p, Before(log[k].value)) in log[..k]
  }

  /** No process is signalled, or let go, or seen running, after it has been seen stopped. */
  ghost predicate Quiet(log: seq<Event>) {
    forall i, k :: 0 <= i < k < |log| && log[i].Seen? && !log[i].running && log[k].p == log[i].p ==> log[k] == log[i]
  }

  /** The log agrees with the latches. */
  ghost predicate Latched(log: seq<Event>, ps: seq<OwnedProcess>)
    reads ps
  {
    forall p :: p in ps && Seen(p, false) in log ==> p.Stopped()
  }

  lemma EscalatesAppend(log: seq<Event>, e: Event)
    requires Escalates(log)
    requires e.Signalled? && e.value != Interrupt ==> Signalled(e.p, Before(e.value)) in log
    ensures Escalates(log + [e])
  {
    var longer := log + [e];
    forall k | 0 <= k < |longer| && longer[k].Signalled? && longer[k].value != Interrupt
      ensures Signalled(longer[k].p, Before(longer[k].value)) in longer[..k]
    {
      if k < |log| {
        assert longer[..k] == log[..k];
      } else {
        assert longer[..k] == log;
      }
    }
  }

  lemma QuietAppend(log: seq<Event>, e: Event)
    requires Quiet(log) && (Seen(e.p, false) in log ==> e == Seen(e.p, false))
    ensures Quiet(log + [e])
  {
  }

  // ---------------------------------------------------------------------
  // The shutdown
  // ---------------------------------------------------------------------

  /** The system itself has said, in answer to a logged call, that the process is gone. */
  ghost predicate ToldGone(os: Os, p: OwnedProcess)
    reads os
  {
    exists call: nat :: Asked(p, call) in os.log && p.GoneAt(os, call)
  }

  /** Call number `call` reported an error, or was refused. */
  ghost predicate FaultAt(os: Os, call: nat) { os.childError(call) || os.killAnswer(call) == Refused }

  /** Some system call since number `from` went wrong. */
  ghost predicate Faulted(os: Os, from: nat)
    reads os
  {
    exists call: nat :: from <= call < os.calls && FaultAt(os, call)
  }

  /** The log and the call counter grow, what was stopped stays so, and what stops does so on the system's word. */
  twostate predicate Evolves(os: Os, ps: seq<OwnedProcess>)
    reads os, ps
  {
    && old(os.log) <= os.log && old(os.calls) <= os.calls
    && (forall p :: p in ps && old(p.Stopped()) ==> p.Stopped())
    && (forall p :: p in ps && p.Stopped() ==> old(p.Stopped()) || ToldGone(os, p))
  }

  /** One of the processes has been seen running in the meantime. */
  twostate predicate SomeRan(os: Os, ps: seq<OwnedProcess>)
    reads os
  {
    exists p, k :: p in ps && |old(os.log)| <= k < |os.log| && os.log[k] == Seen(p, true)
  }

  ghost predicate Fine(os: Os, ps: seq<OwnedProcess>)
    reads os, ps
  {
    Escalates(os.log) && Quiet(os.log) && Latched(os.log, ps)
  }

  /** Asks one of the processes whether it runs. */
  method Look(p: OwnedProcess, ps: seq<OwnedProcess>, os: Os) returns (r: Answer)
    requires Fine(os, ps) && p in ps
    modifies p`leaderExited, p`finished, os`calls, os`log
    ensures Fine(os, ps) && Evolves(os, ps)
    ensures r.Value? ==> r.value == !p.Stopped()
    ensures r == Value(true) ==> SomeRan(os, ps)
    ensures r.Threw? ==> Faulted(os, old(os.calls))
  {
    ghost var log, question := os.log, p.Question(os, os.calls);
    assert p.Stopped() || Seen(p, false) !in log;
    ghost var stopped := p.Stopped();
    r := p.Running(os);
    if p.Stopped() && !stopped {
      assert question[0] in os.log && p.GoneAt(os, question[0].call);
    }
    assert Evolves(os, ps);
    if question != [] {
      EscalatesAppend(log, question[0]);
      QuietAppend(log, question[0]);
      assert log + question == log + [question[0]];
    } else {
      assert log + question == log;
    }
    if r.Value? {
      assert os.log[|os.log| - 1] == Seen(p, r.value);
      EscalatesAppend(log + question, Seen(p, r.value));
      QuietAppend(log + question, Seen(p, r.value));
    } else {
      assert FaultAt(os, old(os.calls));
    }
  }

  /** Polls every process once. */
  method PollAll(ps: seq<OwnedProcess>, os: Os) returns (r: Answer)
    requires Fine(os, ps)
    modifies ps, os`calls, os`log, os`polls
    ensures Fine(os, ps) && Evolves(os, ps)
    ensures r == Value(false) ==> forall p :: p in ps ==> p.Stopped()
    ensures r == Value(true) ==> SomeRan(os, ps)
    ensures r.Threw? ==> Faulted(os, old(os.calls))
    ensures os.polls == old(os.polls) + 1
    ensures forall p :: p in ps ==> p.detached == old(p.detached)
  {
    os.polls := os.polls + 1;
    var anyRunning := false;
    var i := 0;
    while i < |ps|
      invariant 0 <= i <= |ps| && os.polls == old(os.polls) + 1
      invariant Fine(os, ps) && Evolves(os, ps)
      invariant if anyRunning then SomeRan(os, ps) else forall j :: 0 <= j < i ==> ps[j].Stopped()
      invariant forall p :: p in ps ==> p.detached == old(p.detached)
    {
      var answer := Look(ps[i], ps, os);
      if answer.Threw? {
        return Threw;
      }
      anyRunning := anyRunning || answer.value;
      i := i + 1;
    }
    return Value(anyRunning);
  }

  function AtLeastZero(x: int): nat { if x < 0 then 0 else x }

  lemma RoundsBound(rounds: nat, duration: int)
    requires rounds <= 1 || (rounds - 2) * POLL < duration
    ensures rounds <= AtLeastZero(duration) / POLL + 2
  {
  }

  /** Polls until nothing runs or the time is up; `Value(true)` if nothing runs, `Value(false)` only after the time. */
  method Wait(ps: seq<OwnedProcess>, os: Os, duration: int) returns (r: Answer)
    requires Fine(os, ps)
    modifies ps, os`calls, os`log, os`polls, os`now
    ensures Fine(os, ps) && Evolves(os, ps)
    ensures r == Value(true) ==> forall p :: p in ps ==> p.Stopped()
    ensures r == Value(false) ==> SomeRan(os, ps)
    ensures os.now >= old(os.now) && (r == Value(false) ==> os.now >= old(os.now) + duration)
    ensures r.Threw? ==> Faulted(os, old(os.calls))
    ensures os.polls <= old(os.polls) + AtLeastZero(duration) / POLL + 2
    ensures forall p :: p in ps ==> p.detached == old(p.detached)
  {
    var start := os.ReadClock();
    var deadline := start + duration;
    ghost var rounds := 0;
    while true
      invariant Fine(os, ps) && Evolves(os, ps)
      invariant forall p :: p in ps ==> p.detached == old(p.detached)
      invariant rounds >= 0 && os.polls == old(os.polls) + rounds
      invariant start >= old(os.now) && rounds * POLL <= os.now - start
      invariant rounds > 0 ==> (rounds - 1) * POLL < duration
      decreases AtLeastZero(deadline - os.now)
    {
      rounds := rounds + 1;
      RoundsBound(rounds, duration);
      var anyRunning := PollAll(ps, os);
      if anyRunning.Threw? {
        return Threw;
      }
      if !anyRunning.value {
        return Value(true);
      }
      var t := os.ReadClock();
      if t >= deadline {
        return Value(false);
      }
      os.Sleep(POLL);
    }
  }

  /** A stronger signal may only go to processes that got the weaker one. */
  ghost predicate Warned(os: Os, ps: seq<OwnedProcess>, value: Signal)
    reads os, ps
  {
    forall p :: p in ps ==> p.Stopped() || Signalled(p, value) in os.log
  }

  /** Signals a process just seen running. */
  method SignalOne(p: OwnedProcess, ps: seq<OwnedProcess>, os: Os, value: Signal) returns (ok: bool)
    requires Fine(os, ps) && p in ps && !p.Stopped()
    requires value != Interrupt ==> Signalled(p, Before(value)) in os.log
    modifies os`calls, os`log
    ensures Fine(os, ps) && Evolves(os, ps) && Signalled(p, value) in os.log
    ensures !ok ==> Faulted(os, old(os.calls))
  {
    ghost var log := os.log;
    assert Seen(p, false) !in log;
    ok := p.SendSignal(value, os);
    EscalatesAppend(log, Signalled(p, value));
    QuietAppend(log, Signalled(p, value));
    assert !ok ==> FaultAt(os, old(os.calls));
  }

  /** Signals every process still running; false if a call threw. */
  method SignalAll(ps: seq<OwnedProcess>, os: Os, value: Signal) returns (ok: bool)
    requires Fine(os, ps) && (value != Interrupt ==> Warned(os, ps, Before(value)))
    modifies ps, os`calls, os`log
    ensures Fine(os, ps) && Evolves(os, ps)
    ensures if ok then Warned(os, ps, value) else Faulted(os, old(os.calls))
    ensures forall p :: p in ps ==> p.detached == old(p.detached)
  {
    var i := 0;
    while i < |ps|
      invariant 0 <= i <= |ps|
      invariant Fine(os, ps) && Evolves(os, ps)
      invariant value != Interrupt ==> Warned(os, ps, Before(value))
      invariant forall j :: 0 <= j < i ==> ps[j].Stopped() || Signalled(ps[j], value) in os.log
      invariant forall p :: p in ps ==> p.detached == old(p.detached)
    {
      var p := ps[i];
      var answer := Look(p, ps, os);
      if answer.Threw? {
        return false;
      }
      if answer.value {
        ok := SignalOne(p, ps, os, value);
        if !ok {
          return false;
        }
      }
      i := i + 1;
    }
    return true;
  }

  /** Lets go of a process just seen running. */
  method DetachOne(p: OwnedProcess, ps: seq<OwnedProcess>, os: Os)
    requires Fine(os, ps) && p in ps && !p.Stopped()
    modifies p`detached, os`log
    ensures Fine(os, ps) && Evolves(os, ps) && p.detached
  {
    ghost var log := os.log;
    assert Seen(p, false) !in log;
    p.Detach(os);
    EscalatesAppend(log, LetGo(p));
    QuietAppend(log, LetGo(p));
  }

  /** Lets go of every process still running. */
  method DetachAll(ps: seq<OwnedProcess>, os: Os) returns (ok: bool)
    requires Fine(os, ps)
    modifies ps, os`calls, os`log
    ensures Fine(os, ps) && Evolves(os, ps)
    ensures if ok then forall p :: p in ps ==> p.Stopped() || p.detached else Faulted(os, old(os.calls))
  {
    var i := 0;
    while i < |ps|
      invariant 0 <= i <= |ps|
      invariant Fine(os, ps) && Evolves(os, ps)
      invariant forall j :: 0 <= j < i ==> ps[j].Stopped() || ps[j].detached
    {
      var p := ps[i];
      var answer := Look(p, ps, os);
      if answer.Threw? {
        return false;
      }
      if answer.value {
        DetachOne(p, ps, os);
      }
      i := i + 1;
    }
    return true;
  }

  /** Signals every process still running, then waits for them. */
  method Urge(ps: seq<OwnedProcess>, os: Os, value: Signal, duration: int) returns (r: Answer)
    requires Fine(os, ps) && (value != Interrupt ==> Warned(os, ps, Before(value)))
    modifies ps, os`calls, os`log, os`polls, os`now
    ensures Fine(os, ps) && Evolves(os, ps)
    ensures r == Value(true) ==> forall p :: p in ps ==> p.Stopped()
    ensures r == Value(false) ==> (exists p :: p in ps && Seen(p, true) in os.log) && Warned(os, ps, value)
    ensures r == Value(false) ==> os.now >= old(os.now) + AtLeastZero(duration)
    ensures r.Threw? ==> Faulted(os, old(os.calls))
    ensures os.polls <= old(os.polls) + AtLeastZero(duration) / POLL + 2
  {
    var ok := SignalAll(ps, os, value);
    if !ok { return Threw; }
    ghost var log := os.log;
    r := Wait(ps, os, duration);
    assert log <= os.log;
  }

  /** The last resort: kills, waits, and lets go of what still runs. */
  method KillAndDetach(ps: seq<OwnedProcess>, os: Os) returns (r: Answer)
    requires Fine(os, ps) && Warned(os, ps, Terminate)
    modifies ps, os`calls, os`log, os`polls, os`now
    ensures Fine(os, ps) && Evolves(os, ps)
    ensures r == Value(true) ==> forall p :: p in ps ==> p.Stopped()
    ensures r == Value(false) ==>
              && (exists p :: p in ps && Seen(p, true) in os.log)
              && os.now >= old(os.now) + PATIENCE
              && forall p :: p in ps ==> p.Stopped() || (p.detached && Signalled(p, Kill) in os.log)
    ensures r.Threw? ==> Faulted(os, old(os.calls))
    ensures os.polls <= old(os.polls) + PATIENCE / POLL + 2
  {
    r := Urge(ps, os, Kill, PATIENCE);
    if r == Value(false) {
      ghost var log := os.log;
      var ok := DetachAll(ps, os);
      assert log <= os.log;
      r := if ok then Value(false) else Threw;
    }
  }

  /**
   The whole shutdown. Its log escalates and leaves stopped processes alone; a
   process counts as stopped only on the system's own word. `true` means all have
   stopped; `false`, which takes the whole time allowed, that whatever still runs
   was killed and is detached; it throws only if a system call went wrong. The
   number of polls is bounded by the time allowed. The log and the poll counter
   are those of this call.
   */
  method ShutdownProcesses(ps: seq<OwnedProcess>, os: Os, grace: int) returns (r: Answer)
    modifies ps, os
    ensures Escalates(os.log) && Quiet(os.log)
    ensures forall p :: p in ps && (old(p.Stopped()) || Seen(p, false) in os.log) ==> p.Stopped()
    ensures forall p :: p in ps && p.Stopped() ==> old(p.Stopped()) || ToldGone(os, p)
    ensures r == Value(true) ==> forall p :: p in ps ==> p.Stopped()
    ensures r == Value(false) ==>
              && os.now >= old(os.now) + AtLeastZero(grace) + 4_000_000_000
              && (exists p :: p in ps && Seen(p, true) in os.log)
              && forall p :: p in ps ==> p.Stopped() || (p.detached && Signalled(p, Kill) in os.log)
    ensures r.Threw? ==> Faulted(os, old(os.calls))
    ensures os.polls <= AtLeastZero(grace) / 20_000_000 + 206
  {
    os.log, os.polls := [], 0;
    r := Urge(ps, os, Interrupt, grace);
    if r != Value(false) { return; }
    r := Urge(ps, os, Terminate, PATIENCE);
    if r != Value(false) { return; }
    r := KillAndDetach(ps, os);
  }

  // ---------------------------------------------------------------------
  // What such a log means
  // ---------------------------------------------------------------------

  /** A process sent the kill signal was sent the interrupt first and the terminate signal in between. */
  lemma KilledOnlyAfterWarnings(log: seq<Event>, k: nat)
    requires Escalates(log) && k < |log| && log[k].Signalled? && log[k].value == Kill
    ensures exists i, j ::
              0 <= i < j < k && log[i] == Signalled(log[k].p, Interrupt) && log[j] == Signalled(log[k].p, Terminate)
  {
    var p := log[k].p;
    assert Signalled(p, Terminate) in log[..k];
    var j :| 0 <= j < k && log[..k][j] == Signalled(p, Terminate);
    assert log[j].Signalled? && Signalled(p, Interrupt) in log[..j];
    var i :| 0 <= i < j && log[..j][i] == Signalled(p, Interrupt);
    assert log[i] == Signalled(p, Interrupt);
  }

  /** Once a process has been seen stopped it is never seen running, signalled or let go again. */
  lemma StoppedIsLeftAlone(log: seq<Event>, i: nat, k: nat)
    requires Quiet(log) && i < k < |log| && log[i] == Seen(log[k].p, false)
    ensures !log[k].Signalled? && !log[k].LetGo? && log[k] == Seen(log[k].p, false)
  {
  }
}
