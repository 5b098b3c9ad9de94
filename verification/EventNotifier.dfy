/**
 The event notifier that suppresses repetitions: an event is published unless
 the same event was published less than a threshold ago.

 `toMs` turns a clock difference into milliseconds; nothing is assumed of it.
 Sequence ids are 32 bits wide.
 */
module EventNotifiers {
  import opened Options

  type EventId = x: int | 0 <= x < 256

  const WRAP: nat := 0x1_0000_0000

  datatype EventLog = EventLog(component: string, id: EventId, severity: EventId, text: string, sequenceId: nat,
      timestamp: int)

  /** A notifier as a value: when each event was last published, the threshold, and all it has sent. */
  datatype Notifier = Notifier(last: map<EventId, int>, threshold: real, sequenceId: nat, sent: seq<EventLog>)

  /** A call: what to publish, its sequence id not yet filled in, and when; or a new threshold. */
  datatype Call = Notification(log: EventLog, now: int) | Threshold(ms: real)

  predicate Due(s: Notifier, toMs: int -> real, call: Call) {
    call.Notification? && (call.log.id in s.last ==> toMs(call.now - s.last[call.log.id]) >= s.threshold)
  }

  function After(s: Notifier, toMs: int -> real, call: Call): Notifier {
    match call
    case Threshold(ms) => s.(threshold := ms)
    case Notification(log, now) =>
      if Due(s, toMs, call) then
        var id := (s.sequenceId + 1) % WRAP;
        Notifier(s.last[log.id := now], s.threshold, id, s.sent + [log.(sequenceId := id)])
      else s
  }

  class RobustEventNotifier {
    const name: string
    const toMs: int -> real
    var lastEventPubTime: map<EventId, int>
    var spammingThreshold: real
    var msg: EventLog
    ghost var sent: seq<EventLog>

    ghost function Abs(): Notifier
      reads this
    {
      Notifier(lastEventPubTime, spammingThreshold, msg.sequenceId, sent)
    }

    constructor (name: string, toMs: int -> real, threshold: real)
      ensures Abs() == Notifier(map[], threshold, 0, [])
      ensures this.name == name == msg.component && this.toMs == toMs
    {
      this.name, this.toMs := name, toMs;
      msg := EventLog(name, 0, 0, "", 0, 0);
      lastEventPubTime := map[];
      spammingThreshold := threshold;
      sent := [];
    }

    /** Publishes unconditionally; `stamp` is the wall clock. */
    method Publish(id: EventId, severity: EventId, text: string, stamp: int)
      modifies this`msg, this`sent
      ensures msg == EventLog(old(msg.component), id, severity, text, (old(msg.sequenceId) + 1) % WRAP, stamp)
      ensures sent == old(sent) + [msg]
    {
      msg := msg.(id := id, severity := severity, text := text);
      msg := msg.(sequenceId := (msg.sequenceId + 1) % WRAP);
      msg := msg.(timestamp := stamp);
      sent := sent + [msg];
    }

    /** `now` is the monotone clock. */
    method Notify(id: EventId, severity: EventId, text: string, now: int, stamp: int)
      modifies this
      ensures var log := EventLog(old(msg.component), id, severity, text, 0, stamp);
        Abs() == After(old(Abs()), toMs, Notification(log, now))
      ensures msg.component == old(msg.component)
    {
      var publish := id !in lastEventPubTime;
      if !publish {
        var spammingEvent := toMs(now - lastEventPubTime[id]) < spammingThreshold;
        publish := !spammingEvent;
      }
      if publish {
        Publish(id, severity, text, stamp);
        lastEventPubTime := lastEventPubTime[id := now];
      }
    }

    method SetSpammingThreshold(threshold: real)
      modifies this`spammingThreshold
      ensures Abs() == After(old(Abs()), toMs, Threshold(threshold))
    {
      spammingThreshold := threshold;
    }
  }

  // ---------------------------------------------------------------------
  // Whole histories
  // ---------------------------------------------------------------------

  predicate Concerns(call: Call, id: EventId) { call.Notification? && call.log.id == id }

  /** The notifier after the first `k` calls. */
  function At(initial: real, toMs: int -> real, calls: seq<Call>, k: nat): Notifier
    requires k <= |calls|
  {
    if k == 0 then Notifier(map[], initial, 0, []) else After(At(initial, toMs, calls, k - 1), toMs, calls[k - 1])
  }

  /** Call `k` is published. */
  predicate Published(initial: real, toMs: int -> real, calls: seq<Call>, k: nat)
    requires k < |calls|
  {
    Due(At(initial, toMs, calls, k), toMs, calls[k])
  }

  /** The latest publication of an event among the first `k` calls. */
  function Latest(initial: real, toMs: int -> real, calls: seq<Call>, id: EventId, k: nat): (j: Option<nat>)
    requires k <= |calls|
    ensures j.Some? ==> j.value < k && Concerns(calls[j.value], id) && Published(initial, toMs, calls, j.value)
    ensures forall i :: (if j.Some? then j.value + 1 else 0) <= i < k && Concerns(calls[i], id) ==>
              !Published(initial, toMs, calls, i)
  {
    if k == 0 then None
    else if Concerns(calls[k - 1], id) && Published(initial, toMs, calls, k - 1) then Some(k - 1)
    else Latest(initial, toMs, calls, id, k - 1)
  }

  /** The threshold in force at call `k`: the last one set before it. */
  function InForce(initial: real, calls: seq<Call>, k: nat): real
    requires k <= |calls|
  {
    if k == 0 then initial else if calls[k - 1].Threshold? then calls[k - 1].ms else InForce(initial, calls, k - 1)
  }

  /** What the notifier remembers is the latest publication of each event and the threshold in force. */
  lemma {:induction false} RemembersLatest(initial: real, toMs: int -> real, calls: seq<Call>, id: EventId, k: nat)
    requires k <= |calls|
    ensures At(initial, toMs, calls, k).threshold == InForce(initial, calls, k)
    ensures var s, j := At(initial, toMs, calls, k), Latest(initial, toMs, calls, id, k);
      (id in s.last <==> j.Some?) && (j.Some? ==> s.last[id] == calls[j.value].now)
  {
    if k > 0 {
      RemembersLatest(initial, toMs, calls, id, k - 1);
    }
  }

  /**
   A notification is published exactly if the event has never been published or
   its latest publication is at least the threshold in force ago. So consecutive
   publications of an event are at least that far apart, and none is dropped
   without a publication more recent than that.
   */
  lemma PublishedIffFarEnough(initial: real, toMs: int -> real, calls: seq<Call>, k: nat)
    requires k < |calls| && calls[k].Notification?
    ensures var j := Latest(initial, toMs, calls, calls[k].log.id, k);
      Published(initial, toMs, calls, k) <==>
        j.None? || toMs(calls[k].now - calls[j.value].now) >= InForce(initial, calls, k)
  {
    RemembersLatest(initial, toMs, calls, calls[k].log.id, k);
  }

  lemma {:induction false} ConstantThreshold(initial: real, calls: seq<Call>, k: nat)
    requires k <= |calls| && forall i :: 0 <= i < |calls| ==> calls[i].Notification?
    ensures InForce(initial, calls, k) == initial
  {
    if k > 0 {
      ConstantThreshold(initial, calls, k - 1);
    }
  }

  /** With a monotone clock and a constant threshold any two publications of an event are at least the threshold apart,
      not only consecutive ones. */
  lemma {:induction false} AllPublicationsApart(initial: real, toMs: int -> real, calls: seq<Call>, j: nat, k: nat)
    requires j < k < |calls| && calls[j].Notification? && calls[k].Notification? && calls[j].log.id == calls[k].log.id
    requires Published(initial, toMs, calls, j) && Published(initial, toMs, calls, k)
    requires forall i :: 0 <= i < |calls| ==> calls[i].Notification?
    requires forall a, b :: 0 <= a <= b < |calls| ==> calls[a].now <= calls[b].now
    requires forall x: int, y: int :: x <= y ==> toMs(x) <= toMs(y)
    ensures toMs(calls[k].now - calls[j].now) >= initial
  {
    PublishedIffFarEnough(initial, toMs, calls, k);
    ConstantThreshold(initial, calls, k);
    var latest := Latest(initial, toMs, calls, calls[k].log.id, k);
    assert latest.Some? && latest.value >= j;
    assert calls[k].now - calls[latest.value].now <= calls[k].now - calls[j].now;
  }

  function CountPublished(initial: real, toMs: int -> real, calls: seq<Call>, k: nat): nat
    requires k <= |calls|
  {
    if k == 0 then 0
    else CountPublished(initial, toMs, calls, k - 1) + (if Published(initial, toMs, calls, k - 1) then 1 else 0)
  }

  lemma Succession(n: nat)
    ensures (n % WRAP + 1) % WRAP == (n + 1) % WRAP
  {
  }

  /** Exactly the published notifications are sent, and their sequence ids count up from one without gaps, around the
      wrap. */
  lemma {:induction false} SequenceIdsHaveNoGaps(initial: real, toMs: int -> real, calls: seq<Call>, k: nat)
    requires k <= |calls|
    ensures var s := At(initial, toMs, calls, k);
      && |s.sent| == CountPublished(initial, toMs, calls, k)
      && s.sequenceId == |s.sent| % WRAP
      && (forall i :: 0 <= i < |s.sent| ==> s.sent[i].sequenceId == (i + 1) % WRAP)
  {
    if k > 0 {
      SequenceIdsHaveNoGaps(initial, toMs, calls, k - 1);
      var s := At(initial, toMs, calls, k - 1);
      Succession(|s.sent|);
    }
  }

  /** Every published notification is what its caller asked for: the message sent for it has the caller's component,
      event, severity, text and stamp, and its own sequence id, and no later call changes it. */
  lemma {:induction false} SentAsAsked(initial: real, toMs: int -> real, calls: seq<Call>, i: nat, k: nat)
    requires i < k <= |calls| && calls[i].Notification? && Published(initial, toMs, calls, i)
    ensures var sent, n := At(initial, toMs, calls, k).sent, CountPublished(initial, toMs, calls, i);
      && n < |sent|
      && var log := calls[i].log;
         sent[n] == EventLog(log.component, log.id, log.severity, log.text, (n + 1) % WRAP, log.timestamp)
  {
    SequenceIdsHaveNoGaps(initial, toMs, calls, k - 1);
    SequenceIdsHaveNoGaps(initial, toMs, calls, k);
    if i < k - 1 {
      SentAsAsked(initial, toMs, calls, i, k - 1);
    }
  }
}
