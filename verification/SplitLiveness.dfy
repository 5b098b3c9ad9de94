/** A quit request is honoured even when raises and transitions are not atomic. */
module SplitLiveness {
  import opened Options
  import opened StateMachines
  import opened AppStateMachine
  import opened AppLifecycle
  import opened LifecycleSplit
  import Results = LifecycleResults

  /** Transitions left before QUIT. A lowered flag may have been raised again before its transition is stored. */
  function TransitionsLeft(s: Split): nat {
    if s.base.m.state == Quit then 0
    else if s.consumed && s.base.pc.Go? then 1 + Results.AfterGo(s.base.m, s.base.pc.e, s.base.m.raised)
    else Results.TransitionsLeft(s.base.pc, s.base.m)
  }

  /** Statements left; lowering a flag and storing the state count separately. */
  function Rank(s: Split): nat {
    if s.base.m.state == Quit then 0
    else 13 * TransitionsLeft(s) + Results.StatementsLeft(s.base.pc) - (if s.consumed && s.base.pc.Go? then 1 else 0)
  }

  predicate ByMain(step: SplitStep) { step.Plain? || step.Lower? || step.Move? }

  /** The step stores a new state. */
  predicate Transits(s: Split, step: SplitStep) { step.Move? || (step.Plain? && s.base.pc.Go?) }

  /** No flag goes up that is not up already; lookups and stores of the desired state may go on. */
  predicate NoNewFlag(s: Split, step: SplitStep) {
    step.StoreFlag? && step.id in s.inFlight ==> s.inFlight[step.id].event in s.base.m.raised
  }

  ghost predicate NoNewFlags(s: Split, steps: seq<SplitStep>)
    requires SplitRun(s, steps)
    decreases |steps|
  {
    steps == [] || (NoNewFlag(s, steps[0]) && NoNewFlags(SplitApply(s, steps[0]), steps[1..]))
  }

  ghost predicate Pending(s: Split) {
    SplitCore(s) && QuitRequest in Restored(s).m.raised && s.base.m.state != Quit
  }

  ghost predicate PendingOrQuit(s: Split) { Pending(s) || (SplitCore(s) && s.base.m.state == Quit) }

  lemma AtMostFour(s: Split)
    requires Pending(s)
    ensures TransitionsLeft(s) <= 4 && Rank(s) <= 63
  {
  }

  /** The step lowers what is left, strictly for a statement of the main thread. */
  ghost predicate Lowers(s: Split, step: SplitStep, t: Split) {
    && PendingOrQuit(t)
    && TransitionsLeft(t) + (if Transits(s, step) then 1 else 0) <= TransitionsLeft(s)
    && Rank(t) + (if ByMain(step) then 1 else 0) <= Rank(s)
  }

  lemma PlainLowers(s: Split, answer: bool)
    requires Pending(s) && SplitEnabled(s, Plain(answer))
    ensures Lowers(s, Plain(answer), SplitApply(s, Plain(answer)))
  {
    SplitStepKeepsCore(s, Plain(answer));
    Results.MainLowersRank(s.base, answer);
  }

  lemma LowerLowers(s: Split)
    requires Pending(s) && SplitEnabled(s, Lower)
    ensures Lowers(s, Lower, SplitApply(s, Lower))
  {
    LowerKeepsCore(s);
  }

  lemma MoveLowers(s: Split)
    requires Pending(s) && SplitEnabled(s, Move)
    ensures Lowers(s, Move, SplitApply(s, Move))
  {
    MoveKeepsCore(s);
    assert (s.base.m.state, s.base.pc.e) in s.base.m.table;
  }

  /** Other threads change neither the state nor the program counter nor, here, the flags. */
  lemma OthersLowerNothing(s: Split, step: SplitStep)
    requires Pending(s) && SplitEnabled(s, step) && !ByMain(step) && NoNewFlag(s, step)
    ensures Lowers(s, step, SplitApply(s, step))
  {
    SplitStepKeepsCore(s, step);
    var m, n := s.base.m, SplitApply(s, step).base.m;
    assert n.raised == m.raised && n.state == m.state;
  }

  lemma StepLowers(s: Split, step: SplitStep)
    requires Pending(s) && SplitEnabled(s, step) && NoNewFlag(s, step)
    ensures Lowers(s, step, SplitApply(s, step))
  {
    match step
    case Plain(answer) => PlainLowers(s, answer);
    case Lower => LowerLowers(s);
    case Move => MoveLowers(s);
    case _ => OthersLowerNothing(s, step);
  }

  lemma StaysInQuit(s: Split, step: SplitStep)
    requires SplitCore(s) && s.base.m.state == Quit && SplitEnabled(s, step)
    ensures SplitCore(SplitApply(s, step)) && SplitApply(s, step).base.m.state == Quit && !Transits(s, step)
  {
    SplitStepKeepsCore(s, step);
  }

  /** The main thread can always take its next step. */
  lemma NeverStuck(s: Split) returns (step: SplitStep)
    requires Pending(s)
    ensures SplitEnabled(s, step) && ByMain(step)
  {
    if AtRequest(s.base.pc) {
      step := if s.consumed then Move else Lower;
    } else {
      Results.NeverStuck(s.base);
      step := Plain(true);
    }
  }

  ghost function StatementsIn(steps: seq<SplitStep>): nat {
    if steps == [] then 0 else (if ByMain(steps[0]) then 1 else 0) + StatementsIn(steps[1..])
  }

  ghost function TransitionsIn(s: Split, steps: seq<SplitStep>): nat
    requires SplitRun(s, steps)
    decreases |steps|
  {
    if steps == [] then 0
    else (if Transits(s, steps[0]) then 1 else 0) + TransitionsIn(SplitApply(s, steps[0]), steps[1..])
  }

  lemma {:induction false} QuitFollows(s: Split, steps: seq<SplitStep>)
    requires PendingOrQuit(s) && SplitRun(s, steps) && NoNewFlags(s, steps)
    ensures PendingOrQuit(SplitAfter(s, steps))
    ensures TransitionsIn(s, steps) <= TransitionsLeft(s)
    ensures StatementsIn(steps) > Rank(s) ==> SplitAfter(s, steps).base.m.state == Quit
    ensures s.base.m.state == Quit ==> SplitAfter(s, steps).base.m.state == Quit
    decreases |steps|
  {
    if steps != [] {
      if s.base.m.state == Quit {
        StaysInQuit(s, steps[0]);
      } else {
        StepLowers(s, steps[0]);
      }
      QuitFollows(SplitApply(s, steps[0]), steps[1..]);
    }
  }

  /**
   From any point reachable by any interleaving, stale flags and half-made
   transitions included, where a quit request is pending and no further flag goes
   up: at most four transitions, never stuck before QUIT, and in QUIT after at
   most 64 statements of the main thread.
   */
  lemma QuitWithinFourTransitions(s: Split, steps: seq<SplitStep>)
    requires SplitReachable(s) && QuitRequest in s.base.m.raised && SplitRun(s, steps) && NoNewFlags(s, steps)
    ensures TransitionsIn(s, steps) <= 4
    ensures StatementsIn(steps) >= 64 ==> SplitAfter(s, steps).base.m.state == Quit
    ensures var t := SplitAfter(s, steps);
      t.base.m.state != Quit ==> exists step :: SplitEnabled(t, step) && ByMain(step)
  {
    SplitReachableCore(s);
    if s.base.m.state != Quit {
      AtMostFour(s);
    }
    QuitFollows(s, steps);
    var t := SplitAfter(s, steps);
    if t.base.m.state != Quit {
      var step := NeverStuck(t);
    }
  }
}
