/** The echo service: a counting store, a one-state machine, and what its runs send back. */
module Echo {

  import opened Basics
  import opened Channels
  import opened Messages
  import opened EffectsBuffer
  import opened FsmAdapters
  import opened SinglePipeline
  import opened SingleDelivery
  import opened EchoText

  datatype EchoMsg = EchoMsg(body: string)

  /** One step: a message is echoed with the next number, a tick does nothing. */
  function OnEcho(count: u64, t: Trigger<EchoMsg>): (u64, seq<EchoMsg>) {
    match t
    case Tick(_) => (count, [])
    case Message(m) => (WrappingSucc(count), [EchoMsg(Format(WrappingSucc(count), m.body))])
  }

  class EchoStore {
    var count: u64

    constructor ()
      ensures count == 0
    {
      count := 0;
    }

    /** Pure: the caller bumps the count. */
    function Echo(body: string): (text: string)
      reads this
      ensures ReadsAs(text, WrappingSucc(count), body)
    {
      FormatExactly(Format(WrappingSucc(count), body), WrappingSucc(count), body);
      Format(WrappingSucc(count), body)
    }
  }

  class EchoCtx {
    const store: EchoStore
    var emitted: Option<string>

    constructor ()
      ensures fresh(store) && store.count == 0 && emitted == None
    {
      store := new EchoStore();
      emitted := None;
    }

    /** The handler of the only state. */
    method Running(body: string)
      modifies this, store
      ensures emitted == Some(old(store.Echo(body))) && store.count == WrappingSucc(old(store.count))
      ensures ReadsAs(emitted.value, store.count, body)
    {
      emitted := Some(store.Echo(body));
      store.count := WrappingSucc(store.count);
    }
  }

  class EchoMachine {
    const ctx: EchoCtx

    constructor ()
      ensures fresh(ctx) && fresh(ctx.store) && ctx.store.count == 0
    {
      ctx := new EchoCtx();
    }

    method Step(trigger: Trigger<EchoMsg>, effects: Effects<EchoMsg>)
      modifies ctx, ctx.store, effects
      ensures ctx.store.count == OnEcho(old(ctx.store.count), trigger).0
      ensures effects.outbox == old(effects.outbox) + OnEcho(old(ctx.store.count), trigger).1
      ensures trigger.Tick? ==> ctx.store.count == old(ctx.store.count) && effects.outbox == old(effects.outbox)
      ensures trigger.Message? ==>
        var n := |old(effects.outbox)|;
        && ctx.store.count == WrappingSucc(old(ctx.store.count))
        && |effects.outbox| == n + 1 && effects.outbox[..n] == old(effects.outbox)
        && ReadsAs(effects.outbox[n].body, ctx.store.count, trigger.msg.body)
    {
      match trigger
      case Tick(_) =>
      case Message(msg) =>
        ctx.emitted := None;
        ctx.Running(msg.body);
        var out := ctx.emitted;
        ctx.emitted := None;
        if out.Some? {
          effects.Emit(EchoMsg(out.value));
        }
    }
  }

  /** The echo of the message that is number `i`. */
  function EchoOf(i: nat, m: EchoMsg): EchoMsg {
    EchoMsg(Format(CountFrom(0, i), m.body))
  }

  /** The echoes of a sequence of messages, numbered from one. */
  function Echoes(ms: seq<EchoMsg>): (es: seq<EchoMsg>)
    ensures |es| == |ms|
  {
    if |ms| == 0 then [] else Echoes(ms[..|ms| - 1]) + [EchoOf(|ms|, ms[|ms| - 1])]
  }

  /** The i-th echo reads as number `i + 1` and the whole of the i-th body; past 2^64 the number wraps. */
  lemma {:induction false} EchoesAt(ms: seq<EchoMsg>, i: nat)
    requires i < |ms|
    ensures Echoes(ms)[i] == EchoOf(i + 1, ms[i])
    ensures ReadsAs(Echoes(ms)[i].body, CountFrom(0, i + 1), ms[i].body)
    ensures i < MAX_U64 ==> ReadsAs(Echoes(ms)[i].body, i + 1, ms[i].body)
    decreases |ms|
  {
    if i < |ms| - 1 { EchoesAt(ms[..|ms| - 1], i); }
    FormatExactly(Format(CountFrom(0, i + 1), ms[i].body), CountFrom(0, i + 1), ms[i].body);
  }

  /** Each echo determines its message: equal echoes were asked for by equal messages. */
  lemma EchoesTellMessages(ms: seq<EchoMsg>, other: seq<EchoMsg>)
    requires Echoes(ms) == Echoes(other)
    ensures ms == other
  {
    assert |ms| == |Echoes(ms)| == |Echoes(other)| == |other|;
    forall i | 0 <= i < |ms| ensures ms[i] == other[i] {
      EchoesAt(ms, i);
      EchoesAt(other, i);
      ReadsOneWay(Echoes(ms)[i].body, CountFrom(0, i + 1), ms[i].body, CountFrom(0, i + 1), other[i].body);
    }
  }

  lemma EchoesSnoc(ms: seq<EchoMsg>, m: EchoMsg)
    ensures Echoes(ms + [m]) == Echoes(ms) + [EchoOf(|ms| + 1, m)]
  {
    assert (ms + [m])[..|ms|] == ms;
  }

  /** The echo task, after the triggers `ts`, has echoed the messages `ms` and nothing else. */
  ghost predicate HasEchoed(ts: seq<Trigger<EchoMsg>>, ms: seq<EchoMsg>) {
    var r := RunTask(OnEcho, 0, ts);
    r.fault == None && r.state == CountFrom(0, |ms|) && Forwarded(r.payloads) == Echoes(ms)
  }

  /** The answer to message number `n + 1`, when `n` have been counted. */
  lemma NextEcho(n: nat, m: EchoMsg)
    ensures OnEcho(CountFrom(0, n), Message(m)) == (CountFrom(0, n + 1), [EchoOf(n + 1, m)])
  {
  }

  /** A tick changes nothing and sends nothing. */
  lemma EchoTick(ts: seq<Trigger<EchoMsg>>, ms: seq<EchoMsg>, ns: u64)
    requires HasEchoed(ts, ms)
    ensures HasEchoed(ts + [Tick(ns)], ms)
  {
    var r := RunTask(OnEcho, 0, ts);
    RunTaskSnoc(OnEcho, 0, ts, Tick(ns), None);
    ForwardedSnoc(r.payloads, None);
  }

  /** A message is echoed with the next number. */
  lemma EchoMessage(ts: seq<Trigger<EchoMsg>>, ms: seq<EchoMsg>, m: EchoMsg)
    requires HasEchoed(ts, ms)
    ensures HasEchoed(ts + [Message(m)], ms + [m])
  {
    var r, echo := RunTask(OnEcho, 0, ts), EchoOf(|ms| + 1, m);
    NextEcho(|ms|, m);
    RunTaskSnoc(OnEcho, 0, ts, Message(m), Some(echo));
    ForwardedSnoc(r.payloads, Some(echo));
    EchoesSnoc(ms, m);
  }

  /** What one more slot adds to the triggers and to the messages. */
  lemma SlotSnoc(slots: seq<Slot<EchoMsg>>, slot: Slot<EchoMsg>)
    ensures var t := TriggerOf(slot, 0);
      && LoggedTriggers(slots + [slot]) == LoggedTriggers(slots) + [t]
      && MessagesIn(slots + [slot]) == if t.Message? then MessagesIn(slots) + [t.msg] else MessagesIn(slots)
  {
    TriggersSnoc(slots, slot);
    MessagesSnoc(slots, slot);
  }

  /** One slot more. */
  lemma EchoSlot(slots: seq<Slot<EchoMsg>>, slot: Slot<EchoMsg>)
    requires HasEchoed(LoggedTriggers(slots), MessagesIn(slots))
    ensures HasEchoed(LoggedTriggers(slots + [slot]), MessagesIn(slots + [slot]))
  {
    SlotSnoc(slots, slot);
    match TriggerOf(slot, 0)
    case Tick(ns) => EchoTick(LoggedTriggers(slots), MessagesIn(slots), ns);
    case Message(m) => EchoMessage(LoggedTriggers(slots), MessagesIn(slots), m);
  }

  lemma EchoNothing(slots: seq<Slot<EchoMsg>>)
    requires |slots| == 0
    ensures HasEchoed(LoggedTriggers(slots), MessagesIn(slots))
  {
  }

  /** Over any slots, empty ones included, the echo task forwards the echoes of the messages. */
  lemma {:induction false} EchoTask(slots: seq<Slot<EchoMsg>>)
    ensures HasEchoed(LoggedTriggers(slots), MessagesIn(slots))
    decreases |slots|
  {
    if |slots| == 0 {
      EchoNothing(slots);
    } else {
      var front, slot := slots[..|slots| - 1], slots[|slots| - 1];
      assert slots == front + [slot];
      EchoTask(front);
      EchoSlot(front, slot);
    }
  }

  function EchoService(capacity: Option<nat>): Setup<u64, EchoMsg, EchoMsg> {
    Setup(capacity, 0, OnEcho)
  }

  /** What was sent back is the echoes of the first `n` messages. */
  ghost predicate EchoedUpTo(p: Single<u64, EchoMsg, EchoMsg>, n: nat) {
    n <= |p.sent| && p.outbound == Echoes(p.sent[..n])
  }

  /** The logged messages are a prefix of those sent, and all of them when nothing is left over. */
  lemma LoggedIsPrefix(capacity: Option<nat>, p: Single<u64, EchoMsg, EchoMsg>)
    requires QueueKept(EchoService(capacity), p)
    ensures var ms := MessagesIn(p.slots);
      && |ms| <= |p.sent| && ms == p.sent[..|ms|]
      && (p.stage.Ready? && p.queue == [] ==> |ms| == |p.sent|)
  {
    var ms := MessagesIn(p.slots);
    assert p.sent == ms + (InHand(p.stage) + p.queue);
  }

  /** `es` begins with the echoes of `ms`: numbered from one, in order, with the whole bodies. */
  ghost predicate AreEchoesOf(es: seq<EchoMsg>, ms: seq<EchoMsg>) {
    |ms| <= |es| && forall i | 0 <= i < |ms| :: ReadsAs(es[i].body, CountFrom(0, i + 1), ms[i].body)
  }

  lemma EchoesAreEchoes(ms: seq<EchoMsg>)
    ensures AreEchoesOf(Echoes(ms), ms)
  {
    forall i | 0 <= i < |ms| ensures ReadsAs(Echoes(ms)[i].body, CountFrom(0, i + 1), ms[i].body) {
      EchoesAt(ms, i);
    }
  }

  /**
   Independence from the schedule: over every interleaving of sends and iterations, however many of
   them are empty, what has been sent back is the echoes of a prefix of the messages sent, each once,
   in order, numbered from one; and the prefix is all of them once the queue is empty between
   iterations.
   */
  lemma EchoesAPrefix(capacity: Option<nat>, acts: seq<Action<EchoMsg>>) returns (n: nat)
    ensures var p := Live(EchoService(capacity), acts);
      && EchoedUpTo(p, n) && (p.stage.Ready? && p.queue == [] ==> n == |p.sent|)
      && |p.outbound| == n && AreEchoesOf(p.outbound, p.sent[..n])
  {
    LiveKept(EchoService(capacity), acts);
    var p := Live(EchoService(capacity), acts);
    EchoTask(p.slots);
    LoggedIsPrefix(capacity, p);
    n := |MessagesIn(p.slots)|;
    EchoesAreEchoes(p.sent[..n]);
  }

  /** The replay of a recorded echo run reproduces the echoes it sent. */
  lemma EchoReplays(capacity: Option<nat>, acts: seq<Action<EchoMsg>>, nows: nat -> u64)
    ensures var p := Live(EchoService(capacity), acts);
      Forwarded(RunTask(OnEcho, 0, TriggersOf(p.slots, nows)).payloads) == Echoes(MessagesIn(p.slots)) == p.outbound
  {
    LogReplays(EchoService(capacity), acts, nows);
    LiveKept(EchoService(capacity), acts);
    EchoTask(Live(EchoService(capacity), acts).slots);
  }

  /**
   Nothing waits for ever: once as many iterations have finished as messages were queued at a moment between
   iterations, every message sent by then has been echoed, each in its place.
   */
  lemma EchoedInTime(capacity: Option<nat>, acts: seq<Action<EchoMsg>>, more: seq<Action<EchoMsg>>)
    requires Live(EchoService(capacity), acts).stage.Ready?
    requires var x, y := Live(EchoService(capacity), acts), Live(EchoService(capacity), acts + more);
      |y.slots| >= |x.slots| + |x.queue|
    ensures AreEchoesOf(Live(EchoService(capacity), acts + more).outbound, Live(EchoService(capacity), acts).sent)
  {
    var su := EchoService(capacity);
    var x, y := Live(su, acts), Live(su, acts + more);
    AllTaken(su, acts, more);
    LiveKept(su, acts + more);
    EchoTask(y.slots);
    EchoesAreEchoes(MessagesIn(y.slots));
  }
}
