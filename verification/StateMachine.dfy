/**
 The event-driven state machine: a transition table, a current and a desired
 state, and flags for asynchronous events.

 `Machine` is the machine as a value and specifies the class below it. A table
 entry of `None` is a null pointer, which is what looking up a missing row with
 the subscript operator leaves behind.
 */
module StateMachines {
  import opened Options

  datatype Machine<!S(==), !E(==)> = Machine(
    state: S,
    desired: Option<S>,
    table: map<(S, E), Option<S>>,
    raised: set<E>,
    quit: bool)

  predicate HasRow<S(==), E(==)>(m: Machine<S, E>, e: E) {
    (m.state, e) in m.table && m.table[(m.state, e)].Some?
  }

  function Raise<S(==), E(==)>(m: Machine<S, E>, e: E): Machine<S, E> {
    if (m.state, e) in m.table then m.(desired := m.table[(m.state, e)], raised := m.raised + {e}) else m
  }

  function Consume<S(==), E(==)>(m: Machine<S, E>, e: E): Machine<S, E> {
    m.(raised := m.raised - {e})
  }

  function Next<S(==), E(==)>(m: Machine<S, E>, e: E): Machine<S, E> {
    if (m.state, e) !in m.table then m.(table := m.table[(m.state, e) := None])
    else match m.table[(m.state, e)]
      case None => m
      case Some(target) => m.(state := target, desired := Some(target))
  }

  function NextAsync<S(==), E(==)>(m: Machine<S, E>, e: E): Machine<S, E> { Next(Consume(m, e), e) }

  /** The machine as an object. Each method is one atomic step here. */
  class StateMachine<S(==), E(==)> {
    var state: S
    var desiredState: Option<S>
    var quit: bool
    var transitions: map<(S, E), Option<S>>
    var asyncEvents: map<E, bool>

    ghost function Abs(): Machine<S, E>
      reads this
    {
      Machine(state, desiredState, transitions, (set e | e in asyncEvents && asyncEvents[e]), quit)
    }

    constructor (initial: S, table: map<(S, E), Option<S>>, events: seq<E>)
      ensures Abs() == Machine(initial, Some(initial), table, {}, false)
      ensures asyncEvents.Keys == set e | e in events
    {
      state := initial;
      desiredState := Some(initial);
      quit := false;
      transitions := table;
      asyncEvents := map[];
      new;
      var i := 0;
      while i < |events|
        invariant 0 <= i <= |events|
        invariant asyncEvents.Keys == set e | e in events[..i]
        invariant forall e :: e in asyncEvents ==> !asyncEvents[e]
        invariant state == initial && desiredState == Some(initial) && transitions == table && !quit
      {
        assert events[..i + 1] == events[..i] + [events[i]];
        asyncEvents := asyncEvents[events[i] := false];
        i := i + 1;
      }
      assert events[..i] == events;
    }

    method RaiseEvent(e: E) returns (accepted: bool)
      modifies this
      ensures Abs() == Raise(old(Abs()), e)
      ensures accepted <==> (old(state), e) in old(transitions)
    {
      if (state, e) !in transitions {
        return false;
      }
      desiredState := transitions[(state, e)];
      asyncEvents := asyncEvents[e := true];
      return true;
    }

    method ConsumeEvent(e: E)
      modifies this`asyncEvents
      ensures Abs() == Consume(old(Abs()), e)
    {
      asyncEvents := asyncEvents[e := false];
    }

    /** The lookup inserts a lowered flag for an event it has not seen. */
    method IsRaised(e: E) returns (raised: bool)
      modifies this`asyncEvents
      ensures Abs() == old(Abs())
      ensures raised <==> e in Abs().raised
    {
      if e !in asyncEvents {
        asyncEvents := asyncEvents[e := false];
      }
      raised := asyncEvents[e];
    }

    method NextState(e: E)
      modifies this
      ensures Abs() == Next(old(Abs()), e)
    {
      if (state, e) !in transitions {
        transitions := transitions[(state, e) := None];
      }
      var target := transitions[(state, e)];
      if target.Some? {
        state := target.value;
        desiredState := target;
      }
    }

    method NextStateAsync(e: E)
      modifies this
      ensures Abs() == NextAsync(old(Abs()), e)
    {
      ConsumeEvent(e);
      NextState(e);
    }

    method Stop()
      modifies this`quit
      ensures Abs() == old(Abs()).(quit := true)
    {
      quit := true;
    }
  }

  // -- What the operations promise

  /** A refused event leaves no trace, an accepted one is recorded with its successor as the desired state. */
  lemma RaiseRemembersOnlyUsable<S, E>(m: Machine<S, E>, e: E)
    ensures e in Raise(m, e).raised - m.raised ==> (m.state, e) in m.table
    ensures (m.state, e) !in m.table ==> Raise(m, e) == m
    ensures Raise(m, e).state == m.state && Raise(m, e).table == m.table && Raise(m, e).raised <= m.raised + {e}
  {
  }

  /** A transition that hits a row moves there, agrees with the desired state, lowers only its own flag and keeps the
      table. */
  lemma NextHitsRow<S, E>(m: Machine<S, E>, e: E)
    requires HasRow(m, e)
    ensures var n := NextAsync(m, e);
      && Some(n.state) == m.table[(m.state, e)] == n.desired
      && n.table == m.table && n.raised == m.raised - {e} && n.quit == m.quit
  {
  }

  /** An accepted request is pending, and the transition it asks for reaches exactly the desired state it announced. */
  lemma AcceptedRequestIsHonoured<S, E>(m: Machine<S, E>, e: E)
    requires HasRow(m, e)
    ensures var r := Raise(m, e); var n := NextAsync(r, e);
      e in r.raised && Some(n.state) == r.desired == n.desired && n.raised == m.raised - {e} && n.table == m.table
  {
    assert m.raised + {e} - {e} == m.raised - {e};
  }

  /** A transition without a row changes no state but plants a null entry, after which the same request is accepted
      with a null desired state. */
  lemma NextWithoutRowPlantsNull<S, E>(m: Machine<S, E>, e: E)
    requires (m.state, e) !in m.table
    ensures Next(m, e).state == m.state && Next(m, e).table != m.table
    ensures Raise(Next(m, e), e).desired == None
  {
  }
}
