/**
 The control layer's cycle: the signals of all loaded controllers, in map order,
 become one command.

 Arithmetic is over reals. The command's torques are an array updated in place;
 its other vectors are copied from a controller, zero-filled, or left as the
 previous cycle left them.
 */
module ControlMerge {
  type Byte = x: int | 0 <= x < 256

  const TORQUE: Byte := 0
  const IMPEDANCE: Byte := 1
  const POSITION: Byte := 2
  const VELOCITY: Byte := 3

  datatype Command = Command(mode: Byte, position: seq<real>, velocity: seq<real>, torques: seq<real>, kp: seq<real>,
      kd: seq<real>)

  datatype Controller = Controller(premultiplier: real, msg: Command)

  // ---------------------------------------------------------------------
  // The command a list of controllers means
  // ---------------------------------------------------------------------

  predicate Direct(c: Controller) { c.msg.mode == POSITION || c.msg.mode == VELOCITY }

  predicate Impedance(c: Controller) { c.msg.mode == IMPEDANCE }

  /** The index of the first position or velocity controller, or the length. */
  function FirstDirect(cs: seq<Controller>): (n: nat)
    ensures n <= |cs| && (n < |cs| ==> Direct(cs[n]))
    ensures forall i :: 0 <= i < n ==> !Direct(cs[i])
  {
    if cs == [] || Direct(cs[0]) then 0 else 1 + FirstDirect(cs[1..])
  }

  /** The index of the first impedance controller, or the length. */
  function FirstImpedance(cs: seq<Controller>): (n: nat)
    ensures n <= |cs| && (n < |cs| ==> Impedance(cs[n]))
    ensures forall i :: 0 <= i < n ==> !Impedance(cs[i])
  {
    if cs == [] || Impedance(cs[0]) then 0 else 1 + FirstImpedance(cs[1..])
  }

  /** The first impedance controller contributes its torques, and so does every torque controller unless the first
      controller's mode is neither. */
  predicate Contributes(cs: seq<Controller>, k: nat)
    requires k < |cs|
  {
    k == FirstImpedance(cs) || (cs[k].msg.mode == TORQUE && (cs[0].msg.mode == TORQUE || FirstImpedance(cs) < k))
  }

  /** What a controller adds to joint `j`. */
  function Term(c: Controller, j: nat): real {
    if j < |c.msg.torques| then c.premultiplier * c.msg.torques[j] else 0.0
  }

  /** The weighted sum of the contributions of the first `k` controllers to joint `j`. */
  function Total(cs: seq<Controller>, j: nat, k: nat): real
    requires k <= |cs|
  {
    if k == 0 then 0.0 else Total(cs, j, k - 1) + (if Contributes(cs, k - 1) then Term(cs[k - 1], j) else 0.0)
  }

  function Zeros(n: nat): seq<real> { seq(n, i => 0.0) }

  /** Whose position, velocity and gains hold after the first `k` controllers, none of them direct. */
  function Carried(prev: Command, cs: seq<Controller>, k: nat): Command
    requires k <= |cs|
  {
    if FirstImpedance(cs) < k then cs[FirstImpedance(cs)].msg else prev
  }

  function ModeOf(cs: seq<Controller>, k: nat): Byte
    requires k <= |cs|
  {
    if k == 0 then TORQUE else if FirstImpedance(cs) < k then IMPEDANCE else cs[0].msg.mode
  }

  function DirectCommand(carried: Command, n: nat, msg: Command): Command {
    if msg.mode == POSITION
    then Command(POSITION, msg.position, Zeros(|carried.velocity|), Zeros(n), Zeros(|carried.kp|), Zeros(|carried.kd|))
    else Command(VELOCITY, Zeros(|carried.position|), msg.velocity, Zeros(n), Zeros(|carried.kp|), Zeros(|carried.kd|))
  }

  function Merged(prev: Command, cs: seq<Controller>): Command {
    var d := FirstDirect(cs);
    var carried := Carried(prev, cs, d);
    var n := |prev.torques|;
    if d < |cs| then DirectCommand(carried, n, cs[d].msg)
    else Command(ModeOf(cs, |cs|), carried.position, carried.velocity, seq(n, j requires j >= 0 => Total(cs, j, |cs|)),
        carried.kp, carried.kd)
  }

  // ---------------------------------------------------------------------
  // The loop
  // ---------------------------------------------------------------------

  /** The layer's control signal message, which lives across cycles. */
  class Aggregator {
    var mode: Byte
    var position: seq<real>
    var velocity: seq<real>
    var kp: seq<real>
    var kd: seq<real>
    const torques: array<real>

    ghost function Abs(): Command
      reads this, torques
    {
      Command(mode, position, velocity, torques[..], kp, kd)
    }

    constructor (joints: nat)
      ensures fresh(torques)
      ensures Abs() == Command(0, Zeros(joints), Zeros(joints), Zeros(joints), Zeros(joints), Zeros(joints))
    {
      mode := 0;
      position, velocity, kp, kd := Zeros(joints), Zeros(joints), Zeros(joints), Zeros(joints);
      torques := new real[joints](i => 0.0);
    }

    /** Adds one controller's torques in place. */
    method AddTorques(c: Controller)
      requires |c.msg.torques| <= torques.Length
      modifies torques
      ensures forall j :: 0 <= j < |c.msg.torques| ==>
                torques[j] == old(torques[j]) + c.premultiplier * c.msg.torques[j]
      ensures forall j :: |c.msg.torques| <= j < torques.Length ==> torques[j] == old(torques[j])
    {
      var i := 0;
      while i < |c.msg.torques|
        invariant 0 <= i <= |c.msg.torques|
        invariant forall j :: 0 <= j < i ==> torques[j] == old(torques[j]) + c.premultiplier * c.msg.torques[j]
        invariant forall j :: i <= j < torques.Length ==> torques[j] == old(torques[j])
      {
        torques[i] := torques[i] + c.premultiplier * c.msg.torques[i];
        i := i + 1;
      }
    }

    /** A position controller takes over: its positions, and zeros for everything else. */
    method TakePosition(msg: Command)
      requires msg.mode == POSITION
      modifies this, torques
      ensures Abs() == DirectCommand(old(Abs()), torques.Length, msg)
    {
      mode := POSITION;
      position := msg.position;
      velocity := Zeros(|velocity|);
      forall i | 0 <= i < torques.Length { torques[i] := 0.0; }
      kp := Zeros(|kp|);
      kd := Zeros(|kd|);
    }

    method TakeVelocity(msg: Command)
      requires msg.mode == VELOCITY
      modifies this, torques
      ensures Abs() == DirectCommand(old(Abs()), torques.Length, msg)
    {
      mode := VELOCITY;
      velocity := msg.velocity;
      position := Zeros(|position|);
      forall i | 0 <= i < torques.Length { torques[i] := 0.0; }
      kp := Zeros(|kp|);
      kd := Zeros(|kd|);
    }

    /** One cycle. A controller that may contribute torques must not have more of them than the robot has joints. */
    method Merge(cs: seq<Controller>)
      requires forall c :: c in cs && (c.msg.mode == TORQUE || c.msg.mode == IMPEDANCE) ==>
          |c.msg.torques| <= torques.Length
      modifies this, torques
      ensures Abs() == Merged(old(Abs()), cs)
    {
      forall i | 0 <= i < torques.Length { torques[i] := 0.0; }
      mode := TORQUE;
      var activeImpedance, modeSetOnce := false, false;
      ghost var prev := old(Abs());
      var k := 0;
      while k < |cs|
        invariant 0 <= k <= FirstDirect(cs)
        invariant activeImpedance <==> FirstImpedance(cs) < k
        invariant modeSetOnce <==> k > 0
        invariant mode == ModeOf(cs, k)
        invariant position == Carried(prev, cs, k).position && velocity == Carried(prev, cs, k).velocity
        invariant kp == Carried(prev, cs, k).kp && kd == Carried(prev, cs, k).kd
        invariant forall j :: 0 <= j < torques.Length ==> torques[j] == Total(cs, j, k)
      {
        var msg := cs[k].msg;
        if !modeSetOnce {
          mode := msg.mode;
          modeSetOnce := true;
        }
        if msg.mode == POSITION {
          TakePosition(msg);
          return;
        }
        if msg.mode == VELOCITY {
          TakeVelocity(msg);
          return;
        }
        var firstImpedance := msg.mode == IMPEDANCE && !activeImpedance;
        if (msg.mode == TORQUE && (mode == TORQUE || mode == IMPEDANCE)) || firstImpedance {
          if firstImpedance {
            activeImpedance := true;
            mode := IMPEDANCE;
            position, velocity, kp, kd := msg.position, msg.velocity, msg.kp, msg.kd;
          }
          AddTorques(cs[k]);
        }
        k := k + 1;
      }
    }
  }

  // ---------------------------------------------------------------------
  // What the command promises
  // ---------------------------------------------------------------------

  predicate Sized(m: Command, n: nat) {
    |m.position| == n && |m.velocity| == n && |m.torques| == n && |m.kp| == n && |m.kd| == n
  }

  ghost predicate AllSized(cs: seq<Controller>, n: nat) { forall c :: c in cs ==> Sized(c.msg, n) }

  /**
   The first position or velocity controller in map order wins alone: the command
   is its own vector and zeros in all other fields, whatever the others say and
   whatever the previous command was.
   */
  lemma DirectWinsAlone(prev: Command, cs: seq<Controller>, n: nat)
    requires Sized(prev, n) && AllSized(cs, n) && FirstDirect(cs) < |cs|
    ensures var msg := cs[FirstDirect(cs)].msg;
      Merged(prev, cs) == if msg.mode == POSITION
        then Command(POSITION, msg.position, Zeros(n), Zeros(n), Zeros(n), Zeros(n))
        else Command(VELOCITY, Zeros(n), msg.velocity, Zeros(n), Zeros(n), Zeros(n))
  {
  }

  /**
   Torques and mode never depend on the previous cycle. Position, velocity and
   gains do exactly when no impedance and no direct controller is loaded: then the
   previous cycle's are sent again.
   */
  lemma TorquesForgetThePast(prev: Command, other: Command, cs: seq<Controller>)
    requires |prev.torques| == |other.torques|
    ensures Merged(prev, cs).torques == Merged(other, cs).torques && Merged(prev, cs).mode == Merged(other, cs).mode
    ensures FirstDirect(cs) == |cs| ==>
              Merged(prev, cs).kp == if FirstImpedance(cs) < |cs| then cs[FirstImpedance(cs)].msg.kp else prev.kp
    ensures FirstDirect(cs) == |cs| && FirstImpedance(cs) < |cs| ==> Merged(prev, cs) == Merged(other, cs)
    ensures FirstDirect(cs) == |cs| && FirstImpedance(cs) == |cs| ==>
              Merged(prev, cs) == prev.(mode := ModeOf(cs, |cs|), torques := Merged(prev, cs).torques)
  {
  }

  ghost predicate Valid(cs: seq<Controller>) { forall c :: c in cs ==> c.msg.mode <= VELOCITY }

  /** The weighted sum of all torque controllers, in any order. */
  function TorqueSum(cs: seq<Controller>, j: nat): real {
    if cs == [] then 0.0 else (if cs[0].msg.mode == TORQUE then Term(cs[0], j) else 0.0) + TorqueSum(cs[1..], j)
  }

  lemma {:induction false} TorqueSumAppend(cs: seq<Controller>, c: Controller, j: nat)
    ensures TorqueSum(cs + [c], j) == TorqueSum(cs, j) + (if c.msg.mode == TORQUE then Term(c, j) else 0.0)
  {
    if cs == [] {
      assert cs + [c] == [c];
    } else {
      assert (cs + [c])[1..] == cs[1..] + [c];
      TorqueSumAppend(cs[1..], c, j);
    }
  }

  lemma {:induction false} TotalIsTorqueSum(cs: seq<Controller>, j: nat, k: nat)
    requires Valid(cs) && FirstDirect(cs) == |cs| && k <= |cs|
    ensures Total(cs, j, k)
         == TorqueSum(cs[..k], j) + (if FirstImpedance(cs) < k then Term(cs[FirstImpedance(cs)], j) else 0.0)
  {
    if k > 0 {
      TotalIsTorqueSum(cs, j, k - 1);
      assert cs[..k] == cs[..k - 1] + [cs[k - 1]];
      TorqueSumAppend(cs[..k - 1], cs[k - 1], j);
      assert cs[0] in cs;
    }
  }

  /** With valid modes and no direct controller the torques are those of all torque controllers plus the first
      impedance controller's. */
  lemma TorquesAreTheSum(prev: Command, cs: seq<Controller>, j: nat)
    requires Valid(cs) && FirstDirect(cs) == |cs| && j < |prev.torques|
    ensures Merged(prev, cs).torques[j]
         == TorqueSum(cs, j) + (if FirstImpedance(cs) < |cs| then Term(cs[FirstImpedance(cs)], j) else 0.0)
  {
    TotalIsTorqueSum(cs, j, |cs|);
    assert cs[..|cs|] == cs;
  }

  lemma {:induction false} TorqueSumRemove(cs: seq<Controller>, i: nat, j: nat)
    requires i < |cs|
    ensures TorqueSum(cs, j) == TorqueSum(cs[..i] + cs[i + 1..], j)
        + (if cs[i].msg.mode == TORQUE then Term(cs[i], j) else 0.0)
  {
    if i == 0 {
      assert cs[..0] + cs[1..] == cs[1..];
    } else {
      TorqueSumRemove(cs[1..], i - 1, j);
      assert (cs[..i] + cs[i + 1..])[1..] == cs[1..][..i - 1] + cs[1..][i..];
    }
  }

  lemma MultisetWithout(cs: seq<Controller>, ds: seq<Controller>, i: nat)
    requires multiset(cs) == multiset(ds) && cs != [] && i < |ds| && ds[i] == cs[0]
    ensures multiset(ds[..i] + ds[i + 1..]) == multiset(cs[1..])
  {
    assert cs == [cs[0]] + cs[1..];
    assert ds == ds[..i] + [ds[i]] + ds[i + 1..];
    assert multiset(ds[..i] + ds[i + 1..]) == multiset(ds) - multiset{cs[0]};
  }

  lemma {:induction false} TorqueSumPermutes(cs: seq<Controller>, ds: seq<Controller>, j: nat)
    requires multiset(cs) == multiset(ds)
    ensures TorqueSum(cs, j) == TorqueSum(ds, j)
    decreases |cs|
  {
    if cs == [] {
      assert |multiset(ds)| == 0;
    } else {
      assert cs[0] in multiset(ds);
      var i :| 0 <= i < |ds| && ds[i] == cs[0];
      MultisetWithout(cs, ds, i);
      TorqueSumRemove(ds, i, j);
      TorqueSumPermutes(cs[1..], ds[..i] + ds[i + 1..], j);
    }
  }

  ghost predicate SameFirstImpedance(cs: seq<Controller>, ds: seq<Controller>) {
    var i, k := FirstImpedance(cs), FirstImpedance(ds);
    (i < |cs| <==> k < |ds|) && (i < |cs| ==> cs[i] == ds[k])
  }

  lemma PermutationKeepsKinds(cs: seq<Controller>, ds: seq<Controller>)
    requires multiset(cs) == multiset(ds) && Valid(cs) && FirstDirect(cs) == |cs|
    ensures |cs| == |ds| && Valid(ds) && FirstDirect(ds) == |ds|
  {
    assert |cs| == |multiset(cs)| == |multiset(ds)| == |ds|;
    forall d | d in ds
      ensures d.msg.mode <= VELOCITY && !Direct(d)
    {
      assert d in multiset(ds);
      var i :| 0 <= i < |cs| && cs[i] == d;
    }
  }

  /**
   Reordering the controllers changes nothing as long as the first impedance
   controller stays the same one.
   */
  lemma ReorderingKeepsCommand(prev: Command, cs: seq<Controller>, ds: seq<Controller>)
    requires multiset(cs) == multiset(ds) && Valid(cs) && FirstDirect(cs) == |cs| && SameFirstImpedance(cs, ds)
    ensures Merged(prev, cs) == Merged(prev, ds)
  {
    PermutationKeepsKinds(cs, ds);
    forall j | 0 <= j < |prev.torques|
      ensures Total(cs, j, |cs|) == Total(ds, j, |ds|)
    {
      TorquesAreTheSum(prev, cs, j);
      TorquesAreTheSum(prev, ds, j);
      TorqueSumPermutes(cs, ds, j);
    }
    if |cs| > 0 {
      assert cs[0] in cs && ds[0] in ds;
    }
    assert Merged(prev, cs).torques == Merged(prev, ds).torques;
  }

  /**
   A torque controller can be ignored only behind a first controller whose mode
   byte is not a mode at all: all torque controllers contribute exactly if the
   first controller's mode is valid or none of them precedes the first impedance
   controller.
   */
  lemma AllTorqueControllersCountIff(cs: seq<Controller>)
    requires FirstDirect(cs) == |cs| > 0
    ensures (forall k :: 0 <= k < |cs| && cs[k].msg.mode == TORQUE ==> Contributes(cs, k))
       <==> cs[0].msg.mode <= VELOCITY || (forall k :: 0 <= k < FirstImpedance(cs) ==> cs[k].msg.mode != TORQUE)
  {
  }

  // ---------------------------------------------------------------------
  // One controller more
  // ---------------------------------------------------------------------

  predicate Holding(c: Controller) { c.msg.mode == TORQUE || c.msg.mode == IMPEDANCE }

  lemma {:induction false} FirstDirectAppend(cs: seq<Controller>, c: Controller)
    requires FirstDirect(cs) == |cs| && !Direct(c)
    ensures FirstDirect(cs + [c]) == |cs| + 1
  {
    assert forall i :: 0 <= i < |cs| + 1 ==> !Direct((cs + [c])[i]);
  }

  lemma {:induction false} FirstImpedanceAppend(cs: seq<Controller>, c: Controller)
    ensures FirstImpedance(cs) < |cs| ==> FirstImpedance(cs + [c]) == FirstImpedance(cs)
    ensures FirstImpedance(cs) == |cs| ==> FirstImpedance(cs + [c]) == if Impedance(c) then |cs| else |cs| + 1
  {
    if cs == [] {
      assert cs + [c] == [c];
    } else {
      FirstImpedanceAppend(cs[1..], c);
      assert (cs + [c])[1..] == cs[1..] + [c];
    }
  }

  /** What a list's torques come to: all torque controllers and the first impedance controller. */
  function SumOf(cs: seq<Controller>, j: nat): real {
    TorqueSum(cs, j) + (if FirstImpedance(cs) < |cs| then Term(cs[FirstImpedance(cs)], j) else 0.0)
  }

  lemma SumOfAppend(cs: seq<Controller>, c: Controller, j: nat)
    requires Holding(c)
    ensures SumOf(cs + [c], j)
         == SumOf(cs, j) + if c.msg.mode == TORQUE || FirstImpedance(cs) == |cs| then Term(c, j) else 0.0
  {
    FirstImpedanceAppend(cs, c);
    TorqueSumAppend(cs, c, j);
  }

  lemma ControllerAddsTerm(prev: Command, cs: seq<Controller>, c: Controller, j: nat)
    requires FirstDirect(cs) == |cs| && Valid(cs) && Holding(c) && j < |prev.torques|
    ensures FirstDirect(cs + [c]) == |cs| + 1
    ensures Merged(prev, cs + [c]).torques[j] == Merged(prev, cs).torques[j]
         + if c.msg.mode == TORQUE || FirstImpedance(cs) == |cs| then Term(c, j) else 0.0
  {
    FirstDirectAppend(cs, c);
    TorquesAreTheSum(prev, cs, j);
    TorquesAreTheSum(prev, cs + [c], j);
    SumOfAppend(cs, c, j);
  }

  /** The weighted torque of a controller at a joint, written out. */
  predicate IsWeighted(c: Controller, j: nat, w: real) {
    w == if j < |c.msg.torques| then c.premultiplier * c.msg.torques[j] else 0.0
  }

  lemma TermIsWeighted(c: Controller, j: nat)
    ensures IsWeighted(c, j, Term(c, j))
  {
  }

  /**
   A torque controller added to torque and impedance controllers adds exactly its
   premultiplier times its torque at each of its joints, and nothing at the others.
   */
  lemma TorqueControllerAdds(prev: Command, cs: seq<Controller>, c: Controller, j: nat) returns (w: real)
    requires FirstDirect(cs) == |cs| && Valid(cs) && c.msg.mode == TORQUE && j < |prev.torques|
    ensures FirstDirect(cs + [c]) == |cs| + 1 && IsWeighted(c, j, w)
    ensures Merged(prev, cs + [c]).torques[j] == Merged(prev, cs).torques[j] + w
  {
    ControllerAddsTerm(prev, cs, c, j);
    TermIsWeighted(c, j);
    w := Term(c, j);
  }

  /** An impedance controller adds its weighted torques if it is the first one, and nothing otherwise. */
  lemma ImpedanceControllerAdds(prev: Command, cs: seq<Controller>, c: Controller, j: nat) returns (w: real)
    requires FirstDirect(cs) == |cs| && Valid(cs) && Impedance(c) && j < |prev.torques|
    ensures FirstDirect(cs + [c]) == |cs| + 1 && IsWeighted(c, j, w)
    ensures Merged(prev, cs + [c]).torques[j]
         == Merged(prev, cs).torques[j] + if FirstImpedance(cs) == |cs| then w else 0.0
  {
    ControllerAddsTerm(prev, cs, c, j);
    TermIsWeighted(c, j);
    w := Term(c, j);
  }

  /** No controller, no torque; and a single one gives its weighted torques. */
  lemma SingleController(prev: Command, c: Controller, j: nat)
    requires Holding(c) && j < |prev.torques|
    ensures Merged(prev, []).torques[j] == 0.0 && Merged(prev, []).mode == TORQUE
    ensures IsWeighted(c, j, Merged(prev, [c]).torques[j])
  {
    ControllerAddsTerm(prev, [], c, j);
    assert [] + [c] == [c];
    TermIsWeighted(c, j);
  }

  /** Without a direct controller, the first impedance controller supplies mode, position, velocity and gains. */
  lemma ImpedanceSupplies(prev: Command, cs: seq<Controller>)
    requires FirstDirect(cs) == |cs|
    ensures var n, i := Merged(prev, cs), FirstImpedance(cs);
      if i < |cs| then n.mode == IMPEDANCE && n == cs[i].msg.(torques := n.torques)
      else n.mode == (if cs == [] then TORQUE else cs[0].msg.mode) && n == prev.(mode := n.mode, torques := n.torques)
  {
  }
}
