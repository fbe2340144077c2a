/**
 The adapters that run a machine inside the pipeline: a slot becomes a trigger, the machine is
 stepped with a private effects buffer, and what it emitted becomes the output slot. `FsmTask`
 forwards at most one value and treats more as a fault; `FsmBatchTask` forwards everything.
 */
module FsmAdapters {

  import opened Basics
  import opened Messages
  import opened Machines
  import opened EffectsBuffer

  /** A machine as the adapters see it: a trigger in, the emitted values out, in order. */
  type Machine<!S, !In, !Out> = StepOf<S, Trigger<In>, seq<Out>>

  /** The contents of a message slot, as the log keeps them. */
  datatype Slot<+T> = Slot(payload: Option<T>, tov: Tov)

  class CuMsg<T> {
    var payload: Option<T>
    var tov: Tov

    constructor (payload: Option<T>)
      ensures this.payload == payload && tov == NoTime
    {
      this.payload := payload;
      tov := NoTime;
    }

    function Contents(): Slot<T>
      reads this
    {
      Slot(payload, tov)
    }

    /** Sets the payload, or clears it. */
    method PutPayload(value: Option<T>)
      modifies this`payload
      ensures payload == value
    {
      match value
      case Some(v) => SetPayload(v);
      case None => ClearPayload();
    }

    method SetPayload(value: T)
      modifies this`payload
      ensures payload == Some(value)
    {
      payload := Some(value);
    }

    method ClearPayload()
      modifies this`payload
      ensures payload == None
    {
      payload := None;
    }
  }

  /** The runtime clock. Its readings are arbitrary. */
  class CuContext {
    const readings: nat -> u64
    var taken: nat

    constructor (readings: nat -> u64)
      ensures this.readings == readings && taken == 0
    {
      this.readings := readings;
      taken := 0;
    }

    method Now() returns (t: u64)
      modifies this
      ensures t == readings(old(taken)) && taken == old(taken) + 1
    {
      t := readings(taken);
      taken := taken + 1;
    }
  }

  /** The trigger a slot stands for; only a slot without a time needs the clock. */
  function TriggerOf<T>(slot: Slot<T>, now: u64): Trigger<T> {
    match slot.payload
    case Some(msg) => Message(msg)
    case None =>
      match slot.tov
      case Time(t) => Tick(t)
      case Range(start, _) => Tick(start)
      case NoTime => Tick(now)
  }

  /** The slot needs no clock: it has a payload, or a time. */
  predicate Stamped<T>(slot: Slot<T>) {
    slot.payload.Some? || !slot.tov.NoTime?
  }

  method TriggerFor<T>(ctx: CuContext, input: CuMsg<T>) returns (trigger: Trigger<T>)
    modifies ctx
    ensures input.payload.Some? ==> trigger == Message(input.payload.value)
    ensures input.payload.None? && input.tov.Time? ==> trigger == Tick(input.tov.ns)
    ensures input.payload.None? && input.tov.Range? ==> trigger == Tick(input.tov.start)
    ensures input.payload.None? && input.tov.NoTime? ==> trigger == Tick(ctx.readings(old(ctx.taken)))
    ensures trigger == TriggerOf(input.Contents(), ctx.readings(old(ctx.taken)))
    ensures ctx.taken == old(ctx.taken) + if Stamped(input.Contents()) then 0 else 1
  {
    match input.payload {
      case Some(msg) =>
        trigger := Message(msg);
      case None =>
        match input.tov {
          case Time(t) => trigger := Tick(t);
          case Range(start, _) => trigger := Tick(start);
          case NoTime =>
            var now := ctx.Now();
            trigger := Tick(now);
        }
    }
  }

  /** One step of a machine: the new state, with everything it emitted in the buffer. */
  method Dispatch<S, In, Out>(machine: Machine<S, In, Out>, s: S, trigger: Trigger<In>, effects: Effects<Out>)
      returns (s': S)
    requires effects.outbox == []
    modifies effects
    ensures s' == machine(s, trigger).0
    ensures effects.outbox == machine(s, trigger).1
  {
    var (next, outs) := machine(s, trigger);
    var i := 0;
    while i < |outs|
      invariant 0 <= i <= |outs| && effects.outbox == outs[..i]
    {
      effects.Emit(outs[i]);
      i := i + 1;
    }
    s' := next;
  }

  class FsmTask<S, In, Out> {
    const machine: Machine<S, In, Out>
    var state: S

    constructor (machine: Machine<S, In, Out>, cold: S)
      ensures this.machine == machine && state == cold
    {
      this.machine := machine;
      state := cold;
    }

    /** A fault carries the number of values the step emitted; the machine has moved on all the same. */
    method Process(ctx: CuContext, input: CuMsg<In>, output: CuMsg<Out>) returns (fault: Option<nat>)
      modifies this, ctx, output
      ensures var t := TriggerOf(old(input.Contents()), ctx.readings(old(ctx.taken)));
        var outs := machine(old(state), t).1;
        && state == machine(old(state), t).0
        && (fault.Some? <==> |outs| > 1)
        && (fault.Some? ==> fault.value == |outs|)
        && output.payload == (if |outs| == 1 then Some(outs[0]) else None)
        && ctx.taken == old(ctx.taken) + (if Stamped(old(input.Contents())) then 0 else 1)
                         + (if |outs| == 1 then 1 else 0)
        && output.tov == (if |outs| == 1 then Time(ctx.readings(ctx.taken - 1)) else old(output.tov))
    {
      var trigger := TriggerFor(ctx, input);
      var effects := new Effects<Out>();
      state := Dispatch(machine, state, trigger, effects);
      var one := effects.TakeOne();
      fault := None;
      match one {
        case Ok(Some(out)) =>
          output.SetPayload(out);
          var now := ctx.Now();
          output.tov := Time(now);
        case Ok(None) =>
          output.ClearPayload();
        case Err(emitted) =>
          output.ClearPayload();
          fault := Some(emitted);
      }
    }
  }

  class FsmBatchTask<S, In, Out> {
    const machine: Machine<S, In, Out>
    var state: S

    constructor (machine: Machine<S, In, Out>, cold: S)
      ensures this.machine == machine && state == cold
    {
      this.machine := machine;
      state := cold;
    }

    method Process(ctx: CuContext, input: CuMsg<In>, output: CuMsg<Batch<Out>>)
      modifies this, ctx, output
      ensures var t := TriggerOf(old(input.Contents()), ctx.readings(old(ctx.taken)));
        var outs := machine(old(state), t).1;
        && state == machine(old(state), t).0
        && output.payload == BatchOf(outs)
        && ctx.taken == old(ctx.taken) + (if Stamped(old(input.Contents())) then 0 else 1)
                         + (if |outs| > 0 then 1 else 0)
        && output.tov == (if |outs| > 0 then Time(ctx.readings(ctx.taken - 1)) else old(output.tov))
    {
      var trigger := TriggerFor(ctx, input);
      var effects := new Effects<Out>();
      state := Dispatch(machine, state, trigger, effects);
      var outs := effects.Take();
      if |outs| == 0 {
        output.ClearPayload();
      } else {
        output.SetPayload(Batch(outs));
        var now := ctx.Now();
        output.tov := Time(now);
      }
    }
  }

  // ---------------------------------------------------------------------------
  // Runs of the adapters
  // ---------------------------------------------------------------------------

  /** A run of the single-output adapter: the state, the payloads written, and the fault that ended it. */
  datatype TaskRun<S, Out> = TaskRun(state: S, payloads: seq<Option<Out>>, fault: Option<nat>)

  /** Values actually forwarded. */
  function Forwarded<Out>(payloads: seq<Option<Out>>): seq<Out> {
    if |payloads| == 0 then []
    else
      var last := payloads[|payloads| - 1];
      Forwarded(payloads[..|payloads| - 1]) + if last.Some? then [last.value] else []
  }

  /** One step of a run, from the state it is in. */
  function OneMore<S, In, Out>(machine: Machine<S, In, Out>, r: TaskRun<S, Out>, t: Trigger<In>): TaskRun<S, Out> {
    var (s, outs) := machine(r.state, t);
    match One(outs)
    case Ok(payload) => TaskRun(s, r.payloads + [payload], None)
    case Err(emitted) => TaskRun(s, r.payloads, Some(emitted))
  }

  /** The single-output adapter over a sequence of triggers; it stops at the first fault. */
  function RunTask<S, In, Out>(machine: Machine<S, In, Out>, cold: S, ts: seq<Trigger<In>>): TaskRun<S, Out>
    decreases |ts|
  {
    if |ts| == 0 then TaskRun(cold, [], None)
    else
      var r := RunTask(machine, cold, ts[..|ts| - 1]);
      if r.fault.Some? then r else OneMore(machine, r, ts[|ts| - 1])
  }

  /** The batch adapter over the same triggers: the state, and every value of every batch. */
  function RunBatchTask<S, In, Out>(machine: Machine<S, In, Out>, cold: S, ts: seq<Trigger<In>>): (S, seq<Out>)
    decreases |ts|
  {
    if |ts| == 0 then (cold, [])
    else
      var (s, sent) := RunBatchTask(machine, cold, ts[..|ts| - 1]);
      var (s', outs) := machine(s, ts[|ts| - 1]);
      (s', sent + ValuesOf(BatchOf(outs)))
  }

  /** The batch adapter forwards exactly what the machine emits. */
  lemma {:induction false} BatchForwardsAll<S, In, Out>(machine: Machine<S, In, Out>, cold: S, ts: seq<Trigger<In>>)
    ensures RunBatchTask(machine, cold, ts).0 == StateAfter(machine, cold, ts)
    ensures RunBatchTask(machine, cold, ts).1 == Flatten(Answers(machine, cold, ts))
    decreases |ts|
  {
    if |ts| > 0 {
      var front, last := ts[..|ts| - 1], ts[|ts| - 1];
      assert ts == front + [last];
      BatchForwardsAll(machine, cold, front);
      AnswersSnoc(machine, cold, front, last);
      FlattenSnoc(Answers(machine, cold, front), machine(StateAfter(machine, cold, front), last).1);
    }
  }

  lemma ForwardedSnoc<Out>(payloads: seq<Option<Out>>, p: Option<Out>)
    ensures Forwarded(payloads + [p]) == Forwarded(payloads) + if p.Some? then [p.value] else []
  {
    assert (payloads + [p])[..|payloads|] == payloads;
  }

  /** No step emits more than once. */
  ghost predicate SingleEmits<S, In, Out>(machine: Machine<S, In, Out>, cold: S, ts: seq<Trigger<In>>) {
    forall i | 0 <= i < |ts| :: |OutputAt(machine, cold, ts, i)| <= 1
  }

  /** One more trigger, as the adapter runs it. */
  lemma RunTaskSnoc<S, In, Out>(machine: Machine<S, In, Out>, cold: S, ts: seq<Trigger<In>>, t: Trigger<In>,
                                output: Option<Out>)
    requires RunTask(machine, cold, ts).fault == None
    requires One(machine(RunTask(machine, cold, ts).state, t).1) == Ok(output)
    ensures var r := RunTask(machine, cold, ts);
      RunTask(machine, cold, ts + [t]) == TaskRun(machine(r.state, t).0, r.payloads + [output], None)
  {
    assert (ts + [t])[..|ts|] == ts;
  }

  /** The state a run without faults leaves, and the payloads it wrote. */
  ghost predicate RunsClean<S, In, Out>(machine: Machine<S, In, Out>, cold: S, ts: seq<Trigger<In>>) {
    var r := RunTask(machine, cold, ts);
    && r.fault == None && |r.payloads| == |ts|
    && r.state == StateAfter(machine, cold, ts)
    && Forwarded(r.payloads) == Flatten(Answers(machine, cold, ts))
    && forall i | 0 <= i < |ts| :: One(OutputAt(machine, cold, ts, i)) == Ok(r.payloads[i])
  }

  lemma CleanSnoc<S, In, Out>(machine: Machine<S, In, Out>, cold: S, ts: seq<Trigger<In>>, t: Trigger<In>)
    requires RunsClean(machine, cold, ts)
    requires |machine(StateAfter(machine, cold, ts), t).1| <= 1
    ensures RunsClean(machine, cold, ts + [t])
  {
    var r := RunTask(machine, cold, ts);
    var outs := machine(r.state, t).1;
    var output := One(outs).value;
    RunTaskSnoc(machine, cold, ts, t, output);
    ForwardedSnoc(r.payloads, output);
    AnswersSnoc(machine, cold, ts, t);
    FlattenSnoc(Answers(machine, cold, ts), outs);
    StateAfterSnoc(machine, cold, ts, t);
    forall i | 0 <= i < |ts| ensures OutputAt(machine, cold, ts + [t], i) == OutputAt(machine, cold, ts, i) {
      assert Answers(machine, cold, ts + [t])[i] == Answers(machine, cold, ts)[i];
    }
    assert Answers(machine, cold, ts + [t])[|ts|] == outs;
  }

  lemma {:induction false} SingleEmitsRunClean<S, In, Out>(machine: Machine<S, In, Out>, cold: S, ts: seq<Trigger<In>>)
    requires SingleEmits(machine, cold, ts)
    ensures RunsClean(machine, cold, ts)
    decreases |ts|
  {
    if |ts| > 0 {
      var front, last := ts[..|ts| - 1], ts[|ts| - 1];
      assert ts == front + [last];
      forall i | 0 <= i < |front| ensures |OutputAt(machine, cold, front, i)| <= 1 {
        assert front[..i] == ts[..i];
        assert |OutputAt(machine, cold, ts, i)| <= 1;
      }
      SingleEmitsRunClean(machine, cold, front);
      assert |OutputAt(machine, cold, ts, |ts| - 1)| <= 1;
      CleanSnoc(machine, cold, front, last);
    }
  }

  /** While no step emits more than once, the two adapters forward the same values and agree on the state. */
  lemma AdaptersAgree<S, In, Out>(machine: Machine<S, In, Out>, cold: S, ts: seq<Trigger<In>>)
    requires SingleEmits(machine, cold, ts)
    ensures var r := RunTask(machine, cold, ts);
      && r.fault == None && |r.payloads| == |ts|
      && r.state == RunBatchTask(machine, cold, ts).0 == StateAfter(machine, cold, ts)
      && Forwarded(r.payloads) == RunBatchTask(machine, cold, ts).1
  {
    SingleEmitsRunClean(machine, cold, ts);
    BatchForwardsAll(machine, cold, ts);
  }

  /**
   And the single-output adapter faults exactly at the first step that emits more than once, with the
   true count, having forwarded everything before it.
   */
  lemma {:induction false} FaultsExactlyThere<S, In, Out>(machine: Machine<S, In, Out>, cold: S,
                                                           ts: seq<Trigger<In>>, n: nat)
    requires n < |ts| && SingleEmits(machine, cold, ts[..n]) && |OutputAt(machine, cold, ts, n)| > 1
    ensures var r := RunTask(machine, cold, ts);
      && r.fault == Some(|OutputAt(machine, cold, ts, n)|)
      && r.state == StateAfter(machine, cold, ts[..n + 1])
      && Forwarded(r.payloads) == RunBatchTask(machine, cold, ts[..n]).1
    decreases |ts|
  {
    var front := ts[..|ts| - 1];
    if n < |ts| - 1 {
      assert front[..n] == ts[..n] && front[..n + 1] == ts[..n + 1];
      FaultsExactlyThere(machine, cold, front, n);
    } else {
      AdaptersAgree(machine, cold, front);
      StateAfterPrefix(machine, cold, ts, n);
    }
  }

  // ---------------------------------------------------------------------------
  // Independence from the clock
  // ---------------------------------------------------------------------------

  ghost predicate AllStamped<T>(slots: seq<Slot<T>>) {
    forall i | 0 <= i < |slots| :: Stamped(slots[i])
  }

  /** The triggers a log of slots stands for, with `nows` read when a slot has no time. */
  function TriggersOf<T>(slots: seq<Slot<T>>, nows: nat -> u64): (ts: seq<Trigger<T>>)
    ensures |ts| == |slots|
    ensures forall i | 0 <= i < |slots| :: ts[i] == TriggerOf(slots[i], nows(i))
  {
    seq(|slots|, i requires 0 <= i < |slots| => TriggerOf(slots[i], nows(i)))
  }

  /** Two clocks, the same stamped slots: the same triggers, states, payloads and faults. */
  lemma ClockDoesNotMatter<S, In, Out>(machine: Machine<S, In, Out>, cold: S, slots: seq<Slot<In>>,
                                       live: nat -> u64, other: nat -> u64)
    requires AllStamped(slots)
    ensures TriggersOf(slots, live) == TriggersOf(slots, other)
    ensures RunTask(machine, cold, TriggersOf(slots, live)) == RunTask(machine, cold, TriggersOf(slots, other))
  {
    forall i | 0 <= i < |slots| ensures TriggerOf(slots[i], live(i)) == TriggerOf(slots[i], other(i)) {
      assert Stamped(slots[i]);
    }
    assert TriggersOf(slots, live) == TriggersOf(slots, other);
  }

  /** A slot without a payload or a time does depend on the clock. */
  lemma UnstampedSlotsNeedTheClock<T>(slot: Slot<T>)
    ensures Stamped(slot) <==> forall now, other :: TriggerOf(slot, now) == TriggerOf(slot, other)
  {
    if !Stamped(slot) {
      assert TriggerOf(slot, 0) != TriggerOf(slot, 1);
    }
  }

  /** So a log determines its triggers, whatever clock was live, exactly when all its slots are stamped. */
  lemma ClockMattersExactly<T>(slots: seq<Slot<T>>)
    ensures AllStamped(slots) <==>
      forall live: nat -> u64, other: nat -> u64 :: TriggersOf(slots, live) == TriggersOf(slots, other)
  {
    if AllStamped(slots) {
      forall live: nat -> u64, other: nat -> u64 ensures TriggersOf(slots, live) == TriggersOf(slots, other) {
        forall i | 0 <= i < |slots| ensures TriggerOf(slots[i], live(i)) == TriggerOf(slots[i], other(i)) {
          assert Stamped(slots[i]);
        }
      }
    } else {
      var i :| 0 <= i < |slots| && !Stamped(slots[i]);
      assert TriggersOf(slots, _ => 0)[i] == Tick(0) && TriggersOf(slots, _ => 1)[i] == Tick(1);
    }
  }

  lemma RunTaskStep<S, In, Out>(machine: Machine<S, In, Out>, cold: S, ts: seq<Trigger<In>>, i: nat)
    requires i < |ts| && RunTask(machine, cold, ts[..i]).fault.None?
    ensures RunTask(machine, cold, ts[..i + 1]) == OneMore(machine, RunTask(machine, cold, ts[..i]), ts[i])
  {
    assert ts[..i + 1][..i] == ts[..i];
  }

  /**
   The runtime's loop over stamped slots. What it leaves behind does not mention the clock: any other
   run over the logged slots, with any readings, gives the same.
   */
  method RunLogged<S, In, Out>(task: FsmTask<S, In, Out>, ctx: CuContext, slots: seq<Slot<In>>, nows: nat -> u64)
      returns (payloads: seq<Option<Out>>, fault: Option<nat>)
    requires AllStamped(slots)
    modifies task, ctx
    ensures TaskRun(task.state, payloads, fault) ==
      RunTask(task.machine, old(task.state), TriggersOf(slots, nows))
  {
    payloads, fault := [], None;
    ghost var ts := TriggersOf(slots, nows);
    ghost var cold := task.state;
    var i := 0;
    while i < |slots|
      invariant 0 <= i <= |slots|
      invariant fault.None?
      invariant TaskRun(task.state, payloads, fault) == RunTask(task.machine, cold, ts[..i])
    {
      var input := new CuMsg(slots[i].payload);
      input.tov := slots[i].tov;
      var output := new CuMsg<Out>(None);
      assert Stamped(slots[i]);
      RunTaskStep(task.machine, cold, ts, i);
      fault := task.Process(ctx, input, output);
      if fault.Some? {
        RunStopped(task.machine, cold, ts, i + 1);
        return;
      }
      payloads := payloads + [output.payload];
      i := i + 1;
    }
    assert ts[..i] == ts;
  }

  /** A faulted run has stopped. */
  lemma {:induction false} RunStopped<S, In, Out>(machine: Machine<S, In, Out>, cold: S, ts: seq<Trigger<In>>, n: nat)
    requires n <= |ts| && RunTask(machine, cold, ts[..n]).fault.Some?
    ensures RunTask(machine, cold, ts) == RunTask(machine, cold, ts[..n])
    decreases |ts|
  {
    if n < |ts| {
      assert ts[..|ts| - 1][..n] == ts[..n];
      RunStopped(machine, cold, ts[..|ts| - 1], n);
    } else {
      assert ts[..n] == ts;
    }
  }
}
