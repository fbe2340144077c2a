/**
 The source and sink tasks, in place. A `World` is a run of the pipeline on real channels: each of its
 methods is one atomic step, taken after the other threads have acted as the schedule says, and shows
 that the real fields are those of the pipeline's state after the trace. What is proved of all traces
 is thereby proved of this code.
 */
module Tasks {

  import opened Basics
  import opened Channels
  import opened Messages
  import opened Intake
  import opened Pipeline
  import opened FsmAdapters

  /** Other threads change neither the machine nor where this thread is nor what it has written. */
  ghost predicate Undisturbed<S, T, Out>(p: Pipe<S, T, Out>, q: Pipe<S, T, Out>) {
    && q.stage == p.stage && q.line.phase == p.line.phase && q.line.turns == p.line.turns
    && q.outbound == p.outbound && SameRecord(p, q)
  }

  ghost predicate SameRecord<S, T, Out>(p: Pipe<S, T, Out>, q: Pipe<S, T, Out>) {
    q.state == p.state && q.outs == p.outs && q.log == p.log
  }

  /** While outputs go out, the machine, the log and the inbound side's stage stay as they are. */
  ghost predicate SameCycle<S, T, Out>(p: Pipe<S, T, Out>, q: Pipe<S, T, Out>) {
    q.state == p.state && q.log == p.log && q.line.phase == p.line.phase
  }

  /** Forwards a payload, if there is one; an empty slot never fails. */
  method EgressStep<T>(tx: Outbox<T>, payload: Option<T>) returns (ok: bool)
    modifies tx`accepted
    ensures ok <==> payload.None? || tx.connected
    ensures tx.accepted == old(tx.accepted) + if payload.Some? && ok then [payload.value] else []
  {
    match payload
    case Some(v) => ok := tx.Send(v);
    case None => ok := true;
  }

  /** What the other threads can touch of the pipeline's state. */
  function Visible<S, T, Out>(p: Pipe<S, T, Out>): Shared<T> {
    Shared(Msgs(p.line.queue), p.line.clock, p.connected)
  }

  lemma ForeignStep<S, T, Out>(cfg: Config<S, T, Out>, p: Pipe<S, T, Out>, a: Action<T>)
    requires !a.Iterate?
    ensures Undisturbed(p, Apply(cfg, p, a))
    ensures Visible(Apply(cfg, p, a)) == Disturb(cfg.limits.capacity, Visible(p), a)
  {
    match a
    case Send(msg) =>
      var m := Sent(msg, p.line.clock);
      assert Msgs(p.line.queue + [m]) == Msgs(p.line.queue) + [msg];
    case Clock(_) =>
    case HangUp =>
  }

  /** In the pipeline as in the link, the other threads reach only what is shared. */
  lemma {:induction false} ForeignRun<S, T, Out>(cfg: Config<S, T, Out>, p: Pipe<S, T, Out>, acts: seq<Action<T>>)
    requires forall i | 0 <= i < |acts| :: !acts[i].Iterate?
    ensures Undisturbed(p, Exec(cfg, p, acts))
    ensures Visible(Exec(cfg, p, acts)) == DisturbAll(cfg.limits.capacity, Visible(p), acts)
    decreases |acts|
  {
    if |acts| > 0 {
      ForeignRun(cfg, p, acts[..|acts| - 1]);
      ForeignStep(cfg, Exec(cfg, p, acts[..|acts| - 1]), acts[|acts| - 1]);
    }
  }

  /**
   The pipeline's run so far, on the real channels and clock. The trace holds every action taken; what
   the others did in it is what the schedule says.
   */
  class World<S, T, Out> {
    ghost const cfg: Config<S, T, Out>
    const limits: Limits
    const link: Link<T, Out>
    ghost var trace: seq<Action<T>>

    /** The state of the pipeline after everything that has happened. */
    ghost function State(): Pipe<S, T, Out>
      reads this
    {
      Run(cfg, trace)
    }

    ghost predicate Valid()
      reads this, link, link.rx, link.tx
    {
      && limits == cfg.limits && link.capacity == limits.capacity
      && link.View() == Visible(State())
      && link.tx.accepted == State().outbound
      && Obeys(trace, link.schedule, link.at)
    }

    constructor (ghost cfg: Config<S, T, Out>, limits: Limits, schedule: Schedule<T>)
      requires limits == cfg.limits
      ensures Valid() && State() == Init(cfg) && trace == []
      ensures fresh(link) && fresh(link.rx) && fresh(link.tx)
      ensures this.cfg == cfg && this.limits == limits && link.schedule == schedule && link.at == 0
    {
      this.cfg := cfg;
      this.limits := limits;
      link := new Link<T, Out>(limits.capacity, schedule);
      trace := [];
    }

    /** One more step of this thread on record. */
    ghost method Iterated()
      modifies this`trace
      ensures trace == old(trace) + [Iterate] && State() == Apply(cfg, old(State()), Iterate)
      ensures Foreign(trace) == Foreign(old(trace))
    {
      trace := trace + [Iterate];
      ExecSnoc(cfg, Init(cfg), old(trace), Iterate);
      ForeignSnoc(old(trace), Iterate);
    }

    /** The other threads act, as scheduled. */
    method Others()
      requires Valid()
      modifies this`trace, link, link.rx, link.tx`connected
      ensures Valid() && Undisturbed(old(State()), State())
      ensures link.View() == old(link.NextView()) && old(link.clock) <= link.clock
      ensures trace == old(trace) + Foreign(link.schedule(old(link.at))) && link.at == old(link.at) + 1
    {
      ghost var acts := link.Others();
      ForeignRun(cfg, State(), acts);
      ExecAppend(cfg, Init(cfg), trace, acts);
      ForeignAppend(trace, acts);
      trace := trace + acts;
    }

    /** The drain begins. */
    ghost method Begin()
      requires Valid() && Idle(State())
      modifies this`trace
      ensures Valid() && State().stage.Ingesting? && State().line.phase.Draining? && State().line.phase.batch == []
      ensures SameRecord(old(State()), State())
      ensures trace == old(trace) + [Iterate]
    {
      Iterated();
    }

    /** Pulls one message; when there is none, the drain is over. */
    method TryRecv() returns (m: Option<T>)
      requires Valid() && State().stage.Ingesting? && State().line.phase.Draining?
      requires |State().line.phase.batch| < limits.maxBatch
      modifies this`trace, link, link.rx, link.tx`connected
      ensures Valid() && State().stage.Ingesting?
      ensures m.None? ==> State().line.phase.Drained? && State().line.phase.batch == old(State().line.phase.batch)
      ensures m.Some? ==> State().line.phase.Draining?
      ensures m.Some? ==> Msgs(State().line.phase.batch) == Msgs(old(State().line.phase.batch)) + [m.value]
      ensures SameRecord(old(State()), State())
      ensures m == Head(old(link.NextView()).queue)
      ensures trace == old(trace) + Foreign(link.schedule(old(link.at))) + [Iterate] && link.at == old(link.at) + 1
    {
      Others();
      ghost var x := State().line;
      m := link.rx.TryRecv();
      Iterated();
      if |x.queue| > 0 {
        assert Msgs(x.phase.batch + [x.queue[0]]) == Msgs(x.phase.batch) + [x.queue[0].msg];
        assert Msgs(x.queue[1..]) == Msgs(x.queue)[1..];
      }
    }

    /** The drain stops at the cap, without looking at the queue. */
    ghost method Stop()
      requires Valid() && State().stage.Ingesting? && State().line.phase.Draining?
      requires |State().line.phase.batch| == limits.maxBatch
      modifies this`trace
      ensures Valid() && State().stage.Ingesting?
      ensures State().line.phase.Drained? && State().line.phase.batch == old(State().line.phase.batch)
      ensures SameRecord(old(State()), State())
      ensures trace == old(trace) + [Iterate]
    {
      Iterated();
    }

    /** The backlog. */
    method Len() returns (n: nat)
      requires Valid() && State().stage.Ingesting? && State().line.phase.Drained?
      modifies this`trace, link, link.rx, link.tx`connected
      ensures Valid() && State().stage.Ingesting?
      ensures State().line.phase.Measured? && State().line.phase.batch == old(State().line.phase.batch)
      ensures State().line.phase.pending == n && SameRecord(old(State()), State())
      ensures n == |old(link.NextView()).queue|
      ensures trace == old(trace) + Foreign(link.schedule(old(link.at))) + [Iterate] && link.at == old(link.at) + 1
    {
      Others();
      n := |link.rx.queue|;
      Iterated();
    }

    /** The clock reading that stamps the cycle. */
    method ReadClock() returns (now: u64)
      requires Valid() && State().stage.Ingesting? && State().line.phase.Measured?
      modifies this`trace, link, link.rx, link.tx`connected
      ensures Valid() && State().stage.Ingesting? && State().line.phase.Stamped?
      ensures State().line.phase.turn.cycle ==
        Cycle(now, Msgs(old(State().line.phase.batch)), old(State().line.phase.pending))
      ensures SameRecord(old(State()), State())
      ensures now == link.clock && old(link.clock) <= link.clock
      ensures trace == old(trace) + Foreign(link.schedule(old(link.at))) + [Iterate] && link.at == old(link.at) + 1
    {
      Others();
      now := link.clock;
      Iterated();
    }

    /** The machine has taken its step; nothing shared is touched. */
    ghost method Stepped()
      requires Valid() && State().stage.Ingesting? && State().line.phase.Stamped?
      modifies this`trace
      ensures Valid() && State() == StepMachine(cfg, old(State()))
      ensures trace == old(trace) + [Iterate]
    {
      Iterated();
    }

    /** Sends the next output. */
    method SendNext(v: Out) returns (ok: bool)
      requires Valid() && State().stage.Sending? && |State().stage.rest| > 0 && State().stage.rest[0] == v
      modifies this`trace, link, link.rx, link.tx
      ensures Valid() && SameCycle(old(State()), State())
      ensures ok ==> State().stage == Sending(old(State().stage.entry), old(State().stage.rest)[1..])
      ensures !ok ==> State().stage.Faulted?
      ensures link.tx.accepted == old(link.tx.accepted) + if ok then [v] else []
      ensures ok == link.tx.connected
      ensures trace == old(trace) + Foreign(link.schedule(old(link.at))) + [Iterate] && link.at == old(link.at) + 1
    {
      Others();
      ok := EgressStep(link.tx, Some(v));
      Iterated();
    }

    /** The copperlist of the iteration is written. */
    ghost method Logged()
      requires Valid() && State().stage.Sending? && |State().stage.rest| == 0
      modifies this`trace
      ensures Valid() && State() == SendOne(old(State()))
      ensures trace == old(trace) + [Iterate]
    {
      Iterated();
    }
  }

  const DEFAULT_MAX_BATCH: nat := 64

  datatype ConfigError = ZeroMaxBatch | Unreadable(message: string)

  /** What a component's configuration says of a 32-bit setting: nothing, a value, or one of another type. */
  type Setting = Result<Option<u32>, string>

  /** The batch cap of an ingress task: the configured one, or the default; zero is refused. */
  function MaxBatchOf(config: Option<Setting>): (r: Result<nat, ConfigError>)
    ensures r.Err? <==> config.Some? && (config.value.Err? || config.value.value == Some(0))
    ensures config.Some? && config.value.Err? ==> r == Err(Unreadable(config.value.error))
    ensures config == Some(Ok(Some(0))) ==> r == Err(ZeroMaxBatch)
    ensures r.Ok? ==> 0 < r.value <= MAX_U32
    ensures r.Ok? && config.Some? && config.value.value.Some? ==> r.value == config.value.value.value
    ensures config == None || config == Some(Ok(None)) ==> r == Ok(64)
  {
    var setting := if config.Some? then config.value else Ok(None);
    if setting.Err? then Err(Unreadable(setting.error))
    else
      var maxBatch: nat := if setting.value.Some? then setting.value.value else DEFAULT_MAX_BATCH;
      if maxBatch == 0 then Err(ZeroMaxBatch) else Ok(maxBatch)
  }

  /** Drains up to `maxBatch` messages, stopping at the first empty pull, and then measures the backlog. */
  method CycleStep<S, T, Out>(w: World<S, T, Out>, maxBatch: nat) returns (events: seq<T>, pending: nat)
    requires w.Valid() && Idle(w.State()) && maxBatch == w.limits.maxBatch
    modifies w`trace, w.link, w.link.rx, w.link.tx`connected
    ensures w.Valid() && w.State().stage.Ingesting? && SameRecord(old(w.State()), w.State())
    ensures w.State().line.phase.Measured?
    ensures events == Msgs(w.State().line.phase.batch) && pending == w.State().line.phase.pending
    ensures old(w.trace) <= w.trace
    ensures w.link.at == old(w.link.at) + |events| + (if |events| < maxBatch then 1 else 0) + 1
  {
    w.Begin();
    events := [];
    var more := true;
    while more && |events| < maxBatch
      invariant w.Valid() && w.State().stage.Ingesting? && SameRecord(old(w.State()), w.State())
      invariant more ==> w.State().line.phase.Draining?
      invariant !more ==> w.State().line.phase.Drained?
      invariant events == Msgs(w.State().line.phase.batch) && |events| <= maxBatch
      invariant old(w.trace) <= w.trace
      invariant !more ==> |events| < maxBatch
      invariant w.link.at == old(w.link.at) + |events| + if more then 0 else 1
      decreases more, maxBatch - |events|
    {
      var m := w.TryRecv();
      if m.Some? {
        events := events + [m.value];
      } else {
        more := false;
      }
    }
    if more { w.Stop(); }
    pending := w.Len();
  }

  class CycleIngressTask<S, T, Out> {
    const rx: World<S, T, Out>
    const maxBatch: nat

    constructor (rx: World<S, T, Out>, maxBatch: nat)
      ensures this.rx == rx && this.maxBatch == maxBatch
    {
      this.rx := rx;
      this.maxBatch := maxBatch;
    }

    /** Emits a cycle on every iteration, stamped with the clock read after the drain. */
    method Process(newMsg: CuMsg<Cycle<T>>)
      requires rx.Valid() && Idle(rx.State()) && maxBatch == rx.limits.maxBatch
      modifies rx`trace, rx.link, rx.link.rx, rx.link.tx`connected, newMsg
      ensures rx.Valid() && rx.State().stage.Ingesting? && SameRecord(old(rx.State()), rx.State())
      ensures rx.State().line.phase.Stamped?
      ensures newMsg.payload == Some(rx.State().line.phase.turn.cycle)
      ensures newMsg.tov == Time(rx.State().line.phase.turn.cycle.nowNs)
      ensures old(rx.trace) <= rx.trace
      ensures var n := |newMsg.payload.value.events|;
        rx.link.at == old(rx.link.at) + n + (if n < maxBatch then 1 else 0) + 2
    {
      var events, pending := CycleStep(rx, maxBatch);
      var now := rx.ReadClock();
      newMsg.SetPayload(Cycle(now, events, pending));
      newMsg.tov := Time(now);
    }
  }

  class BatchEgressTask<S, T, Out> {
    const tx: World<S, T, Out>

    constructor (tx: World<S, T, Out>)
      ensures this.tx == tx
    {
      this.tx := tx;
    }

    /** Sends the values of a batch in order, up to the first failure. */
    method Process(input: CuMsg<Batch<Out>>) returns (ok: bool)
      requires tx.Valid() && tx.State().stage.Sending? && tx.State().stage.rest == ValuesOf(input.payload)
      modifies tx`trace, tx.link, tx.link.rx, tx.link.tx
      ensures tx.Valid() && SameCycle(old(tx.State()), tx.State())
      ensures ok ==> tx.State().stage == Sending(old(tx.State().stage.entry), [])
      ensures !ok ==> tx.State().stage.Faulted?
      ensures !ok ==> !tx.link.tx.connected
      ensures old(tx.trace) <= tx.trace
      ensures old(tx.link.at) <= tx.link.at
      ensures ok ==> tx.link.at == old(tx.link.at) + |ValuesOf(input.payload)|
      ensures ok ==> tx.link.tx.accepted == old(tx.link.tx.accepted) + ValuesOf(input.payload)
      ensures !ok ==> exists k: nat ::
        k < |ValuesOf(input.payload)| && tx.link.tx.accepted == old(tx.link.tx.accepted) + ValuesOf(input.payload)[..k]
    {
      ok := true;
      match input.payload {
        case None =>
        case Some(Batch(values)) =>
          var i := 0;
          while i < |values|
            invariant 0 <= i <= |values| && tx.Valid() && SameCycle(old(tx.State()), tx.State())
            invariant tx.State().stage == Sending(old(tx.State().stage.entry), values[i..])
            invariant tx.link.tx.accepted == old(tx.link.tx.accepted) + values[..i]
            invariant old(tx.trace) <= tx.trace && tx.link.at == old(tx.link.at) + i
          {
            ok := tx.SendNext(values[i]);
            if !ok { return; }
            assert values[..i + 1] == values[..i] + [values[i]];
            i := i + 1;
          }
      }
    }
  }
}
