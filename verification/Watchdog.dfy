/**
 The watchdog service: a store, a three-state machine whose handlers mutate it, and the
 step that feeds the machine one event per drained message and then one deadline check.
 The classes work in place; `OnCycle` is the closed form of a whole step, without the loop.
 */
module Watchdog {

  import opened Basics
  import opened Messages
  import opened EffectsBuffer

  datatype Feed = Feed(seqno: u32)

  datatype Alarm = Armed | Tripped(silentNs: u64) | Recovered

  datatype State = Idle | Armed | Tripped

  datatype Event = FeedEvent | CheckEvent

  const TIMEOUT_NS: u64 := 50_000_000

  /** The abstract value of a machine between steps. */
  datatype Model = Model(timeoutNs: u64, lastFeedNs: Option<u64>, state: State)

  function Cold(timeoutNs: u64): Model {
    Model(timeoutNs, None, State.Idle)
  }

  /** How long a store has been silent, and whether that is too long. */
  function Silence(lastFeedNs: Option<u64>, nowNs: u64): u64 {
    if lastFeedNs.Some? then SaturatingSub(nowNs, lastFeedNs.value) else 0
  }

  predicate Overlong(timeoutNs: u64, lastFeedNs: Option<u64>, nowNs: u64) {
    lastFeedNs.Some? && Silence(lastFeedNs, nowNs) > timeoutNs
  }

  /** The alarm that a first feed raises, by the state it finds. */
  function FeedAlarm(s: State): seq<Alarm> {
    match s
    case Idle => [Alarm.Armed]
    case Armed => []
    case Tripped => [Alarm.Recovered]
  }

  /** One cycle in closed form: any number of feeds, then one check. */
  function OnCycle<T>(w: Model, c: Cycle<T>): (Model, seq<Alarm>) {
    if |c.events| > 0 then
      (Model(w.timeoutNs, Some(c.nowNs), State.Armed), FeedAlarm(w.state))
    else if w.state.Armed? && Overlong(w.timeoutNs, w.lastFeedNs, c.nowNs) then
      (w.(state := State.Tripped), [Alarm.Tripped(Silence(w.lastFeedNs, c.nowNs))])
    else
      (w, [])
  }

  /** A step of the machine. A tick carries no cycle and changes nothing. */
  function OnTrigger(w: Model, t: Trigger<Cycle<Feed>>): (Model, seq<Alarm>) {
    match t
    case Tick(_) => (w, [])
    case Message(c) => OnCycle(w, c)
  }

  class WatchdogStore {
    const timeoutNs: u64
    var lastFeedNs: Option<u64>

    constructor (timeoutNs: u64)
      ensures this.timeoutNs == timeoutNs && lastFeedNs == None
    {
      this.timeoutNs := timeoutNs;
      lastFeedNs := None;
    }

    method RecordFeed(nowNs: u64)
      modifies this
      ensures lastFeedNs == Some(nowNs)
    {
      lastFeedNs := Some(nowNs);
    }

    function SilentNs(nowNs: u64): (d: u64)
      reads this
      ensures lastFeedNs.None? ==> d == 0
      ensures lastFeedNs.Some? && lastFeedNs.value <= nowNs ==> lastFeedNs.value + d == nowNs
      ensures lastFeedNs.Some? && nowNs < lastFeedNs.value ==> d == 0
    {
      Silence(lastFeedNs, nowNs)
    }

    predicate Expired(nowNs: u64): (late: bool)
      reads this
      ensures late <==> lastFeedNs.Some? && nowNs - lastFeedNs.value > timeoutNs
    {
      Overlong(timeoutNs, lastFeedNs, nowNs)
    }
  }

  /** What handlers may touch: the store, the cycle time, and the alarms of the current cycle. */
  class WatchdogCtx {
    const store: WatchdogStore
    var nowNs: u64
    var emitted: seq<Alarm>

    constructor (timeoutNs: u64)
      ensures fresh(store) && store.timeoutNs == timeoutNs && store.lastFeedNs == None
      ensures emitted == []
    {
      store := new WatchdogStore(timeoutNs);
      nowNs := 0;
      emitted := [];
    }

    method OnIdle(event: Event) returns (next: State)
      modifies this`emitted, store
      ensures event.FeedEvent? ==>
        next == State.Armed && store.lastFeedNs == Some(nowNs) && emitted == old(emitted) + [Alarm.Armed]
      ensures event.CheckEvent? ==>
        next == State.Idle && unchanged(store) && emitted == old(emitted)
    {
      match event
      case FeedEvent =>
        store.RecordFeed(nowNs);
        emitted := emitted + [Alarm.Armed];
        next := State.Armed;
      case CheckEvent =>
        next := State.Idle;
    }

    method OnArmed(event: Event) returns (next: State)
      modifies this`emitted, store
      ensures event.FeedEvent? ==>
        next == State.Armed && store.lastFeedNs == Some(nowNs) && emitted == old(emitted)
      ensures event.CheckEvent? ==> unchanged(store)
      ensures event.CheckEvent? && store.Expired(nowNs) ==>
        next == State.Tripped && emitted == old(emitted) + [Alarm.Tripped(store.SilentNs(nowNs))]
      ensures event.CheckEvent? && !store.Expired(nowNs) ==>
        next == State.Armed && emitted == old(emitted)
    {
      next := State.Armed;
      match event
      case FeedEvent =>
        store.RecordFeed(nowNs);
      case CheckEvent =>
        if store.Expired(nowNs) {
          var silentNs := store.SilentNs(nowNs);
          emitted := emitted + [Alarm.Tripped(silentNs)];
          next := State.Tripped;
        }
    }

    method OnTripped(event: Event) returns (next: State)
      modifies this`emitted, store
      ensures event.FeedEvent? ==>
        next == State.Armed && store.lastFeedNs == Some(nowNs) && emitted == old(emitted) + [Alarm.Recovered]
      ensures event.CheckEvent? ==>
        next == State.Tripped && unchanged(store) && emitted == old(emitted)
    {
      match event
      case FeedEvent =>
        store.RecordFeed(nowNs);
        emitted := emitted + [Alarm.Recovered];
        next := State.Armed;
      case CheckEvent =>
        next := State.Tripped;
    }
  }

  class WatchdogMachine {
    var sm: State
    const ctx: WatchdogCtx

    /** Alarms never survive the step that raised them. */
    ghost predicate Valid()
      reads this, ctx
    {
      ctx.emitted == []
    }

    ghost function Value(): Model
      reads this, ctx, ctx.store
    {
      Model(ctx.store.timeoutNs, ctx.store.lastFeedNs, sm)
    }

    constructor (timeoutNs: u64)
      ensures Valid() && fresh(ctx) && fresh(ctx.store)
      ensures Value() == Cold(timeoutNs)
    {
      ctx := new WatchdogCtx(timeoutNs);
      sm := State.Idle;
    }

    constructor Default()
      ensures Valid() && fresh(ctx) && fresh(ctx.store)
      ensures Value() == Cold(TIMEOUT_NS) == Model(50_000_000, None, State.Idle)
    {
      ctx := new WatchdogCtx(TIMEOUT_NS);
      sm := State.Idle;
    }

    /** Dispatch: the handler of the current state decides the next state. */
    method Handle(event: Event)
      modifies this`sm, ctx`emitted, ctx.store
      ensures event.FeedEvent? ==>
        sm == State.Armed && ctx.store.lastFeedNs == Some(ctx.nowNs)
        && ctx.emitted == old(ctx.emitted) + FeedAlarm(old(sm))
      ensures event.CheckEvent? ==> unchanged(ctx.store)
      ensures event.CheckEvent? && old(sm).Armed? && ctx.store.Expired(ctx.nowNs) ==>
        sm == State.Tripped
        && ctx.emitted == old(ctx.emitted) + [Alarm.Tripped(ctx.store.SilentNs(ctx.nowNs))]
      ensures event.CheckEvent? && !(old(sm).Armed? && ctx.store.Expired(ctx.nowNs)) ==>
        sm == old(sm) && ctx.emitted == old(ctx.emitted)
    {
      var next;
      match sm {
        case Idle => next := ctx.OnIdle(event);
        case Armed => next := ctx.OnArmed(event);
        case Tripped => next := ctx.OnTripped(event);
      }
      sm := next;
    }

    /** One feed event per drained message, one check, then the alarms move to the effects. */
    method Step(trigger: Trigger<Cycle<Feed>>, effects: Effects<Alarm>)
      requires Valid()
      modifies this`sm, ctx, ctx.store, effects
      ensures Valid()
      ensures Value() == OnTrigger(old(Value()), trigger).0
      ensures effects.outbox == old(effects.outbox) + OnTrigger(old(Value()), trigger).1
      ensures trigger.Tick? ==> Value() == old(Value()) && effects.outbox == old(effects.outbox)
      ensures ctx.nowNs == if trigger.Message? then trigger.msg.nowNs else old(ctx.nowNs)
    {
      if trigger.Tick? { return; }
      var cycle := trigger.msg;
      ctx.nowNs := cycle.nowNs;
      var k := 0;
      while k < |cycle.events|
        invariant 0 <= k <= |cycle.events|
        invariant ctx.nowNs == cycle.nowNs
        invariant effects.outbox == old(effects.outbox)
        invariant k == 0 ==> Value() == old(Value()) && ctx.emitted == []
        invariant k > 0 ==> sm == State.Armed && ctx.store.lastFeedNs == Some(cycle.nowNs)
        invariant k > 0 ==> ctx.emitted == FeedAlarm(old(sm))
      {
        Handle(FeedEvent);
        k := k + 1;
      }
      Handle(CheckEvent);
      ghost var raised := ctx.emitted;
      var i := 0;
      while i < |ctx.emitted|
        modifies effects
        invariant 0 <= i <= |ctx.emitted|
        invariant effects.outbox == old(effects.outbox) + raised[..i]
      {
        effects.Emit(ctx.emitted[i]);
        i := i + 1;
      }
      ctx.emitted := [];
    }
  }

  /** A step in isolation: a private effects buffer, everything emitted, in order. */
  method RunStepAll(machine: WatchdogMachine, trigger: Trigger<Cycle<Feed>>) returns (outs: seq<Alarm>)
    requires machine.Valid()
    modifies machine`sm, machine.ctx, machine.ctx.store
    ensures machine.Valid()
    ensures (machine.Value(), outs) == OnTrigger(old(machine.Value()), trigger)
  {
    var effects := new Effects<Alarm>();
    machine.Step(trigger, effects);
    outs := effects.Take();
    assert outs == OnTrigger(old(machine.Value()), trigger).1;
  }
}
