/**
 Waiting for asynchronous events: a condition variable whose waiter tests the
 flags under a mutex that the raising threads never take.

 One step is one access of one thread: the waiter reads one flag, or goes to
 sleep; a raiser stores a flag, or notifies. Any number of raisers run at once.
 Only the waiter's own thread lowers flags, and not while it waits.
 */
module EventWait {
  import opened AppStateMachine

  /** `Testing`: the first `next` flags are read; `Falling`: none was raised, the thread is about to sleep. */
  datatype Waiter = Testing(next: nat, found: bool) | Falling | Asleep | Through

  /** `notifying`: the raisers between store and notify. */
  datatype Wait = Wait(raised: set<AppEvent>, waiter: Waiter, notifying: map<nat, AppEvent>)

  datatype Step = Test | Sleep | Store(id: nat, e: AppEvent) | Notify(id: nat) | Spurious

  predicate Enabled(s: Wait, step: Step) {
    match step
    case Test => s.waiter.Testing?
    case Sleep => s.waiter.Falling?
    case Store(id, e) => id !in s.notifying
    case Notify(id) => id in s.notifying
    case Spurious => s.waiter.Asleep?
  }

  function Awake(waiter: Waiter): Waiter { if waiter.Asleep? then Testing(0, false) else waiter }

  function Apply(wanted: seq<AppEvent>, s: Wait, step: Step): Wait
    requires Enabled(s, step)
  {
    match step
    case Test =>
      if s.waiter.next < |wanted|
      then s.(waiter := Testing(s.waiter.next + 1, s.waiter.found || wanted[s.waiter.next] in s.raised))
      else s.(waiter := if s.waiter.found then Through else Falling)
    case Sleep => s.(waiter := Asleep)
    case Store(id, e) => s.(raised := s.raised + {e}, notifying := s.notifying[id := e])
    case Notify(id) => s.(notifying := s.notifying - {id}, waiter := Awake(s.waiter))
    case Spurious => s.(waiter := Awake(s.waiter))
  }

  ghost predicate ValidRun(wanted: seq<AppEvent>, s: Wait, steps: seq<Step>)
    decreases |steps|
  {
    steps == [] || (Enabled(s, steps[0]) && ValidRun(wanted, Apply(wanted, s, steps[0]), steps[1..]))
  }

  ghost function After(wanted: seq<AppEvent>, s: Wait, steps: seq<Step>): Wait
    requires ValidRun(wanted, s, steps)
    decreases |steps|
  {
    if steps == [] then s else After(wanted, Apply(wanted, s, steps[0]), steps[1..])
  }

  function Begin(raised: set<AppEvent>): Wait { Wait(raised, Testing(0, false), map[]) }

  ghost predicate SomeRaised(wanted: seq<AppEvent>, s: Wait) { exists e :: e in wanted && e in s.raised }

  // ---------------------------------------------------------------------
  // Over all runs
  // ---------------------------------------------------------------------

  ghost predicate Inv(wanted: seq<AppEvent>, s: Wait) {
    (s.waiter.Testing? && s.waiter.found) || s.waiter.Through? ==> SomeRaised(wanted, s)
  }

  lemma StepKeepsInv(wanted: seq<AppEvent>, s: Wait, step: Step)
    requires Inv(wanted, s) && Enabled(s, step)
    ensures Inv(wanted, Apply(wanted, s, step))
  {
    if SomeRaised(wanted, s) {
      var e :| e in wanted && e in s.raised;
      assert e in Apply(wanted, s, step).raised;
    }
  }

  lemma {:induction false} RunKeepsInv(wanted: seq<AppEvent>, s: Wait, steps: seq<Step>)
    requires Inv(wanted, s) && ValidRun(wanted, s, steps)
    ensures Inv(wanted, After(wanted, s, steps))
    decreases |steps|
  {
    if steps != [] {
      StepKeepsInv(wanted, s, steps[0]);
      RunKeepsInv(wanted, Apply(wanted, s, steps[0]), steps[1..]);
    }
  }

  /** The wait returns only with a wanted flag up. */
  lemma ReturnsOnlyWhenRaised(wanted: seq<AppEvent>, raised: set<AppEvent>, steps: seq<Step>)
    requires ValidRun(wanted, Begin(raised), steps) && After(wanted, Begin(raised), steps).waiter == Through
    ensures SomeRaised(wanted, After(wanted, Begin(raised), steps))
  {
    RunKeepsInv(wanted, Begin(raised), steps);
  }

  /** Asleep although a wanted flag is up, with nobody left to notify: only a new raise or a spurious wake-up helps. */
  ghost predicate Hung(wanted: seq<AppEvent>, s: Wait) {
    s.waiter == Asleep && SomeRaised(wanted, s) && s.notifying == map[]
  }

  // -- The course of a run

  /** The wait before step `i` of a run. */
  function At(wanted: seq<AppEvent>, s: Wait, steps: seq<Step>, i: nat): Wait
    requires ValidRun(wanted, s, steps) && i <= |steps|
    decreases i
  {
    if i == 0 then s else At(wanted, Apply(wanted, s, steps[0]), steps[1..], i - 1)
  }

  lemma {:induction false} AtNext(wanted: seq<AppEvent>, s: Wait, steps: seq<Step>, i: nat)
    requires ValidRun(wanted, s, steps) && i < |steps|
    ensures Enabled(At(wanted, s, steps, i), steps[i])
    ensures At(wanted, s, steps, i + 1) == Apply(wanted, At(wanted, s, steps, i), steps[i])
    decreases i
  {
    if i > 0 {
      AtNext(wanted, Apply(wanted, s, steps[0]), steps[1..], i - 1);
    }
  }

  lemma {:induction false} AtEnd(wanted: seq<AppEvent>, s: Wait, steps: seq<Step>)
    requires ValidRun(wanted, s, steps)
    ensures At(wanted, s, steps, |steps|) == After(wanted, s, steps)
    decreases |steps|
  {
    if steps != [] {
      AtEnd(wanted, Apply(wanted, s, steps[0]), steps[1..]);
    }
  }

  /** Step `r` reads the flag `wanted[i]`. */
  predicate Reads(wanted: seq<AppEvent>, s: Wait, steps: seq<Step>, i: nat, r: int)
    requires ValidRun(wanted, s, steps)
  {
    && 0 <= r < |steps| && steps[r] == Test && i < |wanted|
    && At(wanted, s, steps, r).waiter.Testing? && At(wanted, s, steps, r).waiter.next == i
  }

  /** Step `r` reads the flag `wanted[i]` down, in the pass that is under way, or over, at step `n`. */
  ghost predicate ReadDown(wanted: seq<AppEvent>, s: Wait, steps: seq<Step>, i: nat, r: int, n: nat)
    requires ValidRun(wanted, s, steps)
  {
    && Reads(wanted, s, steps, i, r) && r < n <= |steps| && wanted[i] !in At(wanted, s, steps, r).raised
    && (forall j :: r <= j < n ==> steps[j] != Sleep)
  }

  ghost predicate WasReadDown(wanted: seq<AppEvent>, s: Wait, steps: seq<Step>, i: nat, n: nat)
    requires ValidRun(wanted, s, steps)
  {
    exists r :: ReadDown(wanted, s, steps, i, r, n)
  }

  ghost predicate AllReadDown(wanted: seq<AppEvent>, s: Wait, steps: seq<Step>, count: nat, n: nat)
    requires ValidRun(wanted, s, steps)
  {
    forall i: nat :: i < count ==> WasReadDown(wanted, s, steps, i, n)
  }

  /** A pass that has found nothing has read each flag down. */
  ghost predicate PassFits(wanted: seq<AppEvent>, s: Wait, steps: seq<Step>, n: nat)
    requires ValidRun(wanted, s, steps) && n <= |steps|
  {
    match At(wanted, s, steps, n).waiter
    case Testing(next, found) => next <= |wanted| && (!found ==> AllReadDown(wanted, s, steps, next, n))
    case Falling => AllReadDown(wanted, s, steps, |wanted|, n)
    case _ => true
  }

  lemma ReadsExtend(wanted: seq<AppEvent>, s: Wait, steps: seq<Step>, count: nat, n: nat)
    requires ValidRun(wanted, s, steps) && n < |steps| && steps[n] != Sleep && AllReadDown(wanted, s, steps, count, n)
    ensures AllReadDown(wanted, s, steps, count, n + 1)
  {
    var next := n + 1;
    forall i: nat | i < count
      ensures WasReadDown(wanted, s, steps, i, next)
    {
      assert WasReadDown(wanted, s, steps, i, n);
      var r :| ReadDown(wanted, s, steps, i, r, n);
      assert ReadDown(wanted, s, steps, i, r, next);
    }
  }

  lemma {:induction false} PassesFit(wanted: seq<AppEvent>, raised: set<AppEvent>, steps: seq<Step>, n: nat)
    requires ValidRun(wanted, Begin(raised), steps) && n <= |steps|
    ensures PassFits(wanted, Begin(raised), steps, n)
  {
    var s := Begin(raised);
    if n > 0 {
      PassesFit(wanted, raised, steps, n - 1);
      AtNext(wanted, s, steps, n - 1);
      var before := At(wanted, s, steps, n - 1).waiter;
      if before.Falling? && steps[n - 1] != Sleep {
        ReadsExtend(wanted, s, steps, |wanted|, n - 1);
      } else if before.Testing? && !before.found {
        ReadsExtend(wanted, s, steps, before.next, n - 1);
        var i := before.next;
        if steps[n - 1] == Test && i < |wanted| && wanted[i] !in At(wanted, s, steps, n - 1).raised {
          assert ReadDown(wanted, s, steps, i, n - 1, n);
        }
      }
    }
  }

  /** Flags only go up, and only by a store. */
  lemma {:induction false} StoredBetween(wanted: seq<AppEvent>, s: Wait, steps: seq<Step>, r: nat, n: nat, e: AppEvent)
    requires ValidRun(wanted, s, steps) && r <= n <= |steps|
    ensures e in At(wanted, s, steps, r).raised ==> e in At(wanted, s, steps, n).raised
    ensures e !in At(wanted, s, steps, r).raised && e in At(wanted, s, steps, n).raised ==>
              exists k :: r <= k < n && steps[k].Store? && steps[k].e == e
    decreases n
  {
    if r < n {
      StoredBetween(wanted, s, steps, r, n - 1, e);
      AtNext(wanted, s, steps, n - 1);
    }
  }

  lemma {:induction false} NotifiedBetween(wanted: seq<AppEvent>, s: Wait, steps: seq<Step>, k: nat, n: nat, id: nat)
    requires ValidRun(wanted, s, steps) && k <= n <= |steps|
    requires id in At(wanted, s, steps, k).notifying && id !in At(wanted, s, steps, n).notifying
    ensures exists m :: k <= m < n && steps[m] == Notify(id)
    decreases n
  {
    AtNext(wanted, s, steps, n - 1);
    if id in At(wanted, s, steps, n - 1).notifying {
      assert steps[n - 1] == Notify(id);
    } else {
      NotifiedBetween(wanted, s, steps, k, n - 1, id);
    }
  }

  lemma StoreAnnounces(wanted: seq<AppEvent>, s: Wait, id: nat, e: AppEvent)
    requires Enabled(s, Store(id, e))
    ensures Apply(wanted, s, Store(id, e)).notifying != map[]
  {
    assert id in Apply(wanted, s, Store(id, e)).notifying;
  }

  /** Nobody left to notify a sleeper means that nothing has happened since it fell asleep. */
  lemma SleepIsLast(wanted: seq<AppEvent>, raised: set<AppEvent>, steps: seq<Step>)
    requires ValidRun(wanted, Begin(raised), steps)
    requires var s := After(wanted, Begin(raised), steps); s.waiter == Asleep && s.notifying == map[]
    ensures steps != [] && steps[|steps| - 1] == Sleep
  {
    AtEnd(wanted, Begin(raised), steps);
    if steps != [] {
      AtNext(wanted, Begin(raised), steps, |steps| - 1);
      var last := steps[|steps| - 1];
      if last.Store? {
        StoreAnnounces(wanted, At(wanted, Begin(raised), steps, |steps| - 1), last.id, last.e);
      }
    }
  }

  /**
   A lost wake-up: in the last pass over the flags, the waiter reads a wanted flag
   at step `r`; it is stored at `k` and notified at `m`, both before the waiter
   falls asleep with the run's last step.
   */
  ghost predicate Lost(wanted: seq<AppEvent>, s: Wait, steps: seq<Step>, i: nat, r: int, k: int, m: int)
    requires ValidRun(wanted, s, steps)
  {
    && Reads(wanted, s, steps, i, r) && r < k < m < |steps| - 1
    && (forall j :: r <= j < |steps| - 1 ==> steps[j] != Sleep)
    && steps[k].Store? && steps[k].e == wanted[i] && steps[m] == Notify(steps[k].id)
  }

  lemma HungHasLost(wanted: seq<AppEvent>, raised: set<AppEvent>, steps: seq<Step>)
    requires ValidRun(wanted, Begin(raised), steps) && Hung(wanted, After(wanted, Begin(raised), steps))
    ensures exists i: nat, r, k, m :: Lost(wanted, Begin(raised), steps, i, r, k, m)
  {
    var s := Begin(raised);
    SleepIsLast(wanted, raised, steps);
    AtEnd(wanted, s, steps);
    var n := |steps| - 1;
    AtNext(wanted, s, steps, n);
    PassesFit(wanted, raised, steps, n);
    var e :| e in wanted && e in After(wanted, s, steps).raised;
    var i: nat :| i < |wanted| && wanted[i] == e;
    assert WasReadDown(wanted, s, steps, i, n);
    var r :| ReadDown(wanted, s, steps, i, r, n);
    StoredBetween(wanted, s, steps, r, n, e);
    var k :| r <= k < n && steps[k].Store? && steps[k].e == e;
    AtNext(wanted, s, steps, k);
    NotifiedBetween(wanted, s, steps, k + 1, n, steps[k].id);
    var m :| k + 1 <= m < n && steps[m] == Notify(steps[k].id);
    assert Lost(wanted, s, steps, i, r, k, m);
  }

  /**
   Exactly when a wake-up is lost: a sleeper that nobody is about to notify hangs
   if and only if, in its last pass, some wanted flag was stored after it had been
   read and notified before the waiter fell asleep.
   */
  lemma HangsIffNotifiedTooEarly(wanted: seq<AppEvent>, raised: set<AppEvent>, steps: seq<Step>)
    requires ValidRun(wanted, Begin(raised), steps)
    requires var s := After(wanted, Begin(raised), steps); s.waiter == Asleep && s.notifying == map[]
    ensures Hung(wanted, After(wanted, Begin(raised), steps)) <==>
              exists i: nat, r, k, m :: Lost(wanted, Begin(raised), steps, i, r, k, m)
  {
    var s := Begin(raised);
    if Hung(wanted, After(wanted, s, steps)) {
      HungHasLost(wanted, raised, steps);
    }
    if i: nat, r, k, m :| Lost(wanted, s, steps, i, r, k, m) {
      AtNext(wanted, s, steps, k);
      StoredBetween(wanted, s, steps, k + 1, |steps|, wanted[i]);
      AtEnd(wanted, s, steps);
      assert wanted[i] in wanted;
    }
  }

  /** No step but a new raise or a spurious wake-up can move a hung wait. */
  lemma HungStaysHung(wanted: seq<AppEvent>, s: Wait, step: Step)
    requires Hung(wanted, s) && Enabled(s, step)
    ensures step.Store? || step.Spurious?
  {
  }

  lemma Prepend(wanted: seq<AppEvent>, s: Wait, step: Step, rest: seq<Step>) returns (steps: seq<Step>)
    requires Enabled(s, step) && ValidRun(wanted, Apply(wanted, s, step), rest)
    ensures ValidRun(wanted, s, steps) && After(wanted, s, steps) == After(wanted, Apply(wanted, s, step), rest)
  {
    steps := [step] + rest;
    assert steps[1..] == rest;
  }

  /** It does happen: the flag is read, then raised and notified, then the thread goes to sleep. */
  lemma WaitCanHang(e: AppEvent) returns (steps: seq<Step>)
    ensures ValidRun([e], Begin({}), steps) && Hung([e], After([e], Begin({}), steps))
  {
    var a := Begin({});
    var b := Apply([e], a, Test);
    var c := Apply([e], b, Test);
    var d := Apply([e], c, Store(0, e));
    var f := Apply([e], d, Notify(0));
    var g := Apply([e], f, Sleep);
    assert g.notifying == map[] && e in [e] && e in g.raised;
    steps := Prepend([e], f, Sleep, []);
    steps := Prepend([e], d, Notify(0), steps);
    steps := Prepend([e], c, Store(0, e), steps);
    steps := Prepend([e], b, Test, steps);
    steps := Prepend([e], a, Test, steps);
  }

  // ---------------------------------------------------------------------
  // A pass that can see a flag sees it
  // ---------------------------------------------------------------------

  /** In a pass over the flags that has read a wanted flag up or has one up ahead of it. */
  ghost predicate WillSee(wanted: seq<AppEvent>, s: Wait) {
    && s.waiter.Testing? && s.waiter.next <= |wanted|
    && (s.waiter.found || exists i :: s.waiter.next <= i < |wanted| && wanted[i] in s.raised)
  }

  function TestsIn(steps: seq<Step>): nat {
    if steps == [] then 0 else (if steps[0].Test? then 1 else 0) + TestsIn(steps[1..])
  }

  lemma StepSees(wanted: seq<AppEvent>, s: Wait, step: Step)
    requires WillSee(wanted, s) && Enabled(s, step)
    ensures var t := Apply(wanted, s, step);
      if step.Test? && s.waiter.next == |wanted| then t.waiter == Through
      else WillSee(wanted, t) && t.waiter.next == s.waiter.next + (if step.Test? then 1 else 0)
  {
    var t := Apply(wanted, s, step);
    if i :| s.waiter.next <= i < |wanted| && wanted[i] in s.raised {
      assert wanted[i] in t.raised;
    }
  }

  /** With a wanted flag up, to begin to wait, to be notified or to wake up is to start such a pass. */
  lemma RaisedStartsPass(wanted: seq<AppEvent>, s: Wait, step: Step)
    requires SomeRaised(wanted, s)
    ensures WillSee(wanted, Begin(s.raised))
    ensures s.waiter == Asleep && Enabled(s, step) && (step.Notify? || step.Spurious?) ==>
              WillSee(wanted, Apply(wanted, s, step))
  {
    var e :| e in wanted && e in s.raised;
    var i :| 0 <= i < |wanted| && wanted[i] == e;
    assert wanted[i] in Begin(s.raised).raised;
    if s.waiter == Asleep && Enabled(s, step) && (step.Notify? || step.Spurious?) {
      assert wanted[i] in Apply(wanted, s, step).raised;
    }
  }

  lemma {:induction false} StaysThrough(wanted: seq<AppEvent>, s: Wait, steps: seq<Step>)
    requires s.waiter == Through && ValidRun(wanted, s, steps)
    ensures After(wanted, s, steps).waiter == Through && TestsIn(steps) == 0
    decreases |steps|
  {
    if steps != [] {
      StaysThrough(wanted, Apply(wanted, s, steps[0]), steps[1..]);
    }
  }

  /** In every interleaving such a pass ends the wait, with one read of each flag and the decision: it never sleeps. */
  lemma {:induction false} PassEndsWait(wanted: seq<AppEvent>, s: Wait, steps: seq<Step>)
    requires WillSee(wanted, s) && ValidRun(wanted, s, steps)
    ensures var t := After(wanted, s, steps);
      if TestsIn(steps) > |wanted| - s.waiter.next then t.waiter == Through
      else WillSee(wanted, t) && t.waiter.next == s.waiter.next + TestsIn(steps)
    decreases |steps|
  {
    if steps != [] {
      var t := Apply(wanted, s, steps[0]);
      StepSees(wanted, s, steps[0]);
      if t.waiter == Through {
        StaysThrough(wanted, t, steps[1..]);
      } else {
        PassEndsWait(wanted, t, steps[1..]);
      }
    }
  }

  // ---------------------------------------------------------------------
  // What storing the flag under the waiter's mutex would give
  // ---------------------------------------------------------------------

  /** No flag is stored while the waiter holds the mutex, which is always except asleep or done. */
  ghost predicate Guarded(wanted: seq<AppEvent>, s: Wait, steps: seq<Step>)
    requires ValidRun(wanted, s, steps)
    decreases |steps|
  {
    steps == [] || ((steps[0].Store? ==> s.waiter.Asleep? || s.waiter.Through?)
                    && Guarded(wanted, Apply(wanted, s, steps[0]), steps[1..]))
  }

  ghost predicate Announced(s: Wait, e: AppEvent) { exists id :: id in s.notifying && s.notifying[id] == e }

  /** What the waiter has read is still so, and whatever was stored since it fell asleep will be announced. */
  ghost predicate ReadingsHold(wanted: seq<AppEvent>, s: Wait) {
    match s.waiter
    case Testing(next, found) =>
      next <= |wanted| && (!found ==> forall i :: 0 <= i < next ==> wanted[i] !in s.raised)
    case Falling => !SomeRaised(wanted, s)
    case Asleep => forall e :: e in wanted && e in s.raised ==> Announced(s, e)
    case Through => true
  }

  lemma GuardedStore(wanted: seq<AppEvent>, s: Wait, id: nat, e: AppEvent)
    requires ReadingsHold(wanted, s) && id !in s.notifying && (s.waiter.Asleep? || s.waiter.Through?)
    ensures ReadingsHold(wanted, Apply(wanted, s, Store(id, e)))
  {
    var t := Apply(wanted, s, Store(id, e));
    assert t.notifying[id] == e;
    forall x | Announced(s, x)
      ensures Announced(t, x)
    {
      var i :| i in s.notifying && s.notifying[i] == x;
      assert i in t.notifying && t.notifying[i] == x;
    }
  }

  lemma GuardedStep(wanted: seq<AppEvent>, s: Wait, step: Step)
    requires ReadingsHold(wanted, s) && Enabled(s, step) && (step.Store? ==> s.waiter.Asleep? || s.waiter.Through?)
    ensures ReadingsHold(wanted, Apply(wanted, s, step))
  {
    if step.Store? {
      GuardedStore(wanted, s, step.id, step.e);
    }
  }

  lemma {:induction false} GuardedRun(wanted: seq<AppEvent>, s: Wait, steps: seq<Step>)
    requires ReadingsHold(wanted, s) && ValidRun(wanted, s, steps) && Guarded(wanted, s, steps)
    ensures ReadingsHold(wanted, After(wanted, s, steps))
    decreases |steps|
  {
    if steps != [] {
      GuardedStep(wanted, s, steps[0]);
      GuardedRun(wanted, Apply(wanted, s, steps[0]), steps[1..]);
    }
  }

  /** With stores under the mutex no wake-up is ever lost, whatever the raisers and notifications do otherwise. */
  lemma GuardedNeverHangs(wanted: seq<AppEvent>, raised: set<AppEvent>, steps: seq<Step>)
    requires ValidRun(wanted, Begin(raised), steps) && Guarded(wanted, Begin(raised), steps)
    ensures !Hung(wanted, After(wanted, Begin(raised), steps))
  {
    RunKeepsInv(wanted, Begin(raised), steps);
    GuardedRun(wanted, Begin(raised), steps);
  }
}
