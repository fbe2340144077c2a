/**
 The one-message pipeline: an ingress that takes at most one message per iteration and stamps the
 slot with the clock even when it is empty, the single-output adapter, an egress, and the log. Again
 the driver, the clock and a transport that hangs up interleave with every atomic step.
 */
module SinglePipeline {

  import opened Basics
  import opened Channels
  import opened Messages
  import opened EffectsBuffer
  import opened FsmAdapters

  /** Where the iterating thread is within an iteration. A failed one is its last. */
  datatype Progress<+In, +Out> =
    | Ready
    | Pulled(payload: Option<In>)
    | Filled(slot: Slot<In>)
    | Answered(slot: Slot<In>, output: Option<Out>)
    | Stopped(slot: Slot<In>)

  /** `slots` and `payloads` are the log: the ingress slot and the output payload of every iteration. */
  datatype Single<S, In, Out> = Single(
    clock: u64,
    queue: seq<In>,
    sent: seq<In>,
    connected: bool,
    stage: Progress<In, Out>,
    state: S,
    slots: seq<Slot<In>>,
    payloads: seq<Option<Out>>,
    outbound: seq<Out>)

  datatype Setup<!S, !In, !Out> = Setup(capacity: Option<nat>, cold: S, machine: Machine<S, In, Out>)

  function Begin<S, In, Out>(su: Setup<S, In, Out>): Single<S, In, Out> {
    Single(0, [], [], true, Ready, su.cold, [], [], [])
  }

  function Iteration<S, In, Out>(su: Setup<S, In, Out>, p: Single<S, In, Out>): Single<S, In, Out> {
    match p.stage
    case Ready =>
      if |p.queue| == 0 then p.(stage := Pulled(None))
      else p.(queue := p.queue[1..], stage := Pulled(Some(p.queue[0])))
    case Pulled(payload) =>
      p.(stage := Filled(Slot(payload, Time(p.clock))))
    case Filled(slot) =>
      var (s, outs) := su.machine(p.state, TriggerOf(slot, p.clock));
      var next := match One(outs) case Ok(output) => Answered(slot, output) case Err(_) => Stopped(slot);
      p.(state := s, stage := next)
    case Answered(slot, output) =>
      if output.Some? && !p.connected then
        p.(stage := Stopped(slot))
      else
        p.(outbound := p.outbound + (if output.Some? then [output.value] else []),
           slots := p.slots + [slot], payloads := p.payloads + [output], stage := Ready)
    case Stopped(_) => p
  }

  function Do<S, In, Out>(su: Setup<S, In, Out>, p: Single<S, In, Out>, a: Action<In>): Single<S, In, Out> {
    match a
    case Send(msg) =>
      if HasRoom(su.capacity, |p.queue|) then p.(queue := p.queue + [msg], sent := p.sent + [msg])
      else p
    case Clock(now) => if p.clock <= now then p.(clock := now) else p
    case HangUp => p.(connected := false)
    case Iterate => Iteration(su, p)
  }

  /** Any run at all. */
  function Live<S, In, Out>(su: Setup<S, In, Out>, acts: seq<Action<In>>): Single<S, In, Out> {
    if |acts| == 0 then Begin(su)
    else Do(su, Live(su, acts[..|acts| - 1]), acts[|acts| - 1])
  }

  lemma LiveSnoc<S, In, Out>(su: Setup<S, In, Out>, acts: seq<Action<In>>, a: Action<In>)
    ensures Live(su, acts + [a]) == Do(su, Live(su, acts), a)
  {
    assert (acts + [a])[..|acts|] == acts;
  }

  /** The messages among a sequence of slots. */
  function MessagesIn<T>(slots: seq<Slot<T>>): seq<T> {
    if |slots| == 0 then []
    else MessagesIn(slots[..|slots| - 1]) + PayloadOf(slots[|slots| - 1].payload)
  }

  function PayloadOf<T>(payload: Option<T>): seq<T> {
    if payload.Some? then [payload.value] else []
  }

  lemma MessagesSnoc<T>(slots: seq<Slot<T>>, slot: Slot<T>)
    ensures MessagesIn(slots + [slot]) == MessagesIn(slots) + PayloadOf(slot.payload)
  {
    assert (slots + [slot])[..|slots|] == slots;
  }

  /** The message the unfinished iteration holds. */
  function InHand<In, Out>(stage: Progress<In, Out>): seq<In> {
    match stage
    case Ready => []
    case Pulled(payload) => PayloadOf(payload)
    case Filled(slot) => PayloadOf(slot.payload)
    case Answered(slot, _) => PayloadOf(slot.payload)
    case Stopped(slot) => PayloadOf(slot.payload)
  }

  /** The triggers a log stands for. The clock it names is not looked at when every slot has a time. */
  function LoggedTriggers<T>(slots: seq<Slot<T>>): seq<Trigger<T>> {
    TriggersOf(slots, _ => 0)
  }

  lemma TriggersSnoc<T>(slots: seq<Slot<T>>, slot: Slot<T>)
    ensures LoggedTriggers(slots + [slot]) == LoggedTriggers(slots) + [TriggerOf(slot, 0)]
  {
  }

  /** Every slot has a time, as the ingress gives it, even an empty one. */
  ghost predicate AllTimed<T>(slots: seq<Slot<T>>) {
    forall i | 0 <= i < |slots| :: slots[i].tov.Time?
  }

  ghost predicate QueueKept<S, In, Out>(su: Setup<S, In, Out>, p: Single<S, In, Out>) {
    && MessagesIn(p.slots) + InHand(p.stage) + p.queue == p.sent
    && (su.capacity.Some? ==> |p.queue| <= su.capacity.value)
  }

  /** What the machine answered in the iteration that is not logged yet. */
  ghost function LastAnswer<S, In, Out>(su: Setup<S, In, Out>, p: Single<S, In, Out>): seq<Out>
    requires p.stage.Stopped?
  {
    su.machine(RunTask(su.machine, su.cold, LoggedTriggers(p.slots)).state, TriggerOf(p.stage.slot, 0)).1
  }

  /** The run has stopped with an output in hand and nobody to take it. */
  ghost predicate Refused<S, In, Out>(su: Setup<S, In, Out>, p: Single<S, In, Out>) {
    p.stage.Stopped? && !p.connected && |LastAnswer(su, p)| == 1
  }

  /** The run has stopped because its machine emitted more than once. */
  ghost predicate Overemitted<S, In, Out>(su: Setup<S, In, Out>, p: Single<S, In, Out>) {
    p.stage.Stopped? && |LastAnswer(su, p)| > 1
  }

  /** The log, replayed from cold, gives the recorded payloads. */
  ghost predicate LogKept<S, In, Out>(su: Setup<S, In, Out>, p: Single<S, In, Out>) {
    var r := RunTask(su.machine, su.cold, LoggedTriggers(p.slots));
    && AllTimed(p.slots) && |p.slots| == |p.payloads|
    && r.payloads == p.payloads && r.fault == None
    && (p.stage.Ready? || p.stage.Pulled? || p.stage.Filled? ==> r.state == p.state)
    && (p.stage.Filled? ==> p.stage.slot.tov.Time?)
    && (p.stage.Answered? ==>
          && p.stage.slot.tov.Time?
          && p.state == su.machine(r.state, TriggerOf(p.stage.slot, 0)).0
          && One(su.machine(r.state, TriggerOf(p.stage.slot, 0)).1) == Ok(p.stage.output))
    && (p.stage.Stopped? ==>
          && p.stage.slot.tov.Time?
          && p.state == su.machine(r.state, TriggerOf(p.stage.slot, 0)).0
          && (Refused(su, p) || Overemitted(su, p)))
    && p.outbound == Forwarded(p.payloads)
  }

  lemma MoveHead<T>(ms: seq<T>, queue: seq<T>)
    requires |queue| > 0
    ensures ms + [] + queue == ms + [queue[0]] + queue[1..]
  {
    assert queue == [queue[0]] + queue[1..];
  }

  lemma MoveHand<T>(ms: seq<T>, hand: seq<T>, queue: seq<T>)
    ensures ms + hand + queue == (ms + hand) + [] + queue
  {
  }

  lemma PullKept<S, In, Out>(su: Setup<S, In, Out>, p: Single<S, In, Out>)
    requires QueueKept(su, p) && p.stage.Ready?
    ensures QueueKept(su, Iteration(su, p))
  {
    if |p.queue| > 0 {
      MoveHead(MessagesIn(p.slots), p.queue);
    }
  }

  lemma LogQueue<S, In, Out>(su: Setup<S, In, Out>, p: Single<S, In, Out>)
    requires QueueKept(su, p) && p.stage.Answered?
    ensures QueueKept(su, Iteration(su, p))
  {
    MessagesSnoc(p.slots, p.stage.slot);
    MoveHand(MessagesIn(p.slots), InHand(p.stage), p.queue);
  }

  lemma LogStep<S, In, Out>(su: Setup<S, In, Out>, p: Single<S, In, Out>)
    requires LogKept(su, p) && p.stage.Answered?
    ensures LogKept(su, Iteration(su, p))
  {
    var Answered(slot, output) := p.stage;
    TriggersSnoc(p.slots, slot);
    ForwardedSnoc(p.payloads, output);
    RunTaskSnoc(su.machine, su.cold, LoggedTriggers(p.slots), TriggerOf(slot, 0), output);
  }

  lemma SendKept<S, In, Out>(su: Setup<S, In, Out>, p: Single<S, In, Out>, msg: In)
    requires QueueKept(su, p)
    ensures QueueKept(su, Do(su, p, Send(msg)))
  {
    AppendAssoc(MessagesIn(p.slots) + InHand(p.stage), p.queue, [msg]);
  }

  lemma IterationKept<S, In, Out>(su: Setup<S, In, Out>, p: Single<S, In, Out>)
    requires QueueKept(su, p) && LogKept(su, p)
    ensures QueueKept(su, Iteration(su, p)) && LogKept(su, Iteration(su, p))
  {
    match p.stage
    case Ready => PullKept(su, p);
    case Answered(_, _) => LogQueue(su, p); LogStep(su, p);
    case _ =>
  }

  lemma DoKept<S, In, Out>(su: Setup<S, In, Out>, p: Single<S, In, Out>, a: Action<In>)
    requires QueueKept(su, p) && LogKept(su, p)
    ensures QueueKept(su, Do(su, p, a)) && LogKept(su, Do(su, p, a))
  {
    match a
    case Send(msg) => SendKept(su, p, msg);
    case Clock(now) =>
    case HangUp =>
    case Iterate => IterationKept(su, p);
  }

  lemma {:induction false} LiveKept<S, In, Out>(su: Setup<S, In, Out>, acts: seq<Action<In>>)
    ensures QueueKept(su, Live(su, acts)) && LogKept(su, Live(su, acts))
    decreases |acts|
  {
    if |acts| > 0 {
      LiveKept(su, acts[..|acts| - 1]);
      DoKept(su, Live(su, acts[..|acts| - 1]), acts[|acts| - 1]);
    }
  }

  /**
   Replay: for any deterministic machine and any interleaving, running a cold machine over the recorded
   slots, with any clock, reproduces the recorded payloads, the values sent, and no fault.
   */
  lemma LogReplays<S, In, Out>(su: Setup<S, In, Out>, acts: seq<Action<In>>, nows: nat -> u64)
    ensures var p := Live(su, acts); var r := RunTask(su.machine, su.cold, TriggersOf(p.slots, nows));
      r.payloads == p.payloads && r.fault == None && Forwarded(r.payloads) == p.outbound
  {
    LiveKept(su, acts);
    var p := Live(su, acts);
    ClockDoesNotMatter(su.machine, su.cold, p.slots, nows, _ => 0);
  }
}
