/**
 The one-message source and sink tasks, in place, and the iteration they make with the single-output
 adapter. As for the cycle pipeline, each method of a `SingleWorld` is one atomic step taken after the
 other threads have acted as the schedule says.
 */
module SingleTasks {

  import opened Basics
  import opened Channels
  import opened Messages
  import opened FsmAdapters
  import opened SinglePipeline
  import opened SingleDelivery
  import Tasks

  function Visible<S, In, Out>(p: Single<S, In, Out>): Shared<In> {
    Shared(p.queue, p.clock, p.connected)
  }

  /** Other threads change neither the machine nor where this thread is nor what it has written. */
  ghost predicate Undisturbed<S, In, Out>(p: Single<S, In, Out>, q: Single<S, In, Out>) {
    && q.stage == p.stage && q.state == p.state
    && q.slots == p.slots && q.payloads == p.payloads && q.outbound == p.outbound
  }

  /** What an iteration leaves alone until it is logged. */
  ghost predicate SameLog<S, In, Out>(p: Single<S, In, Out>, q: Single<S, In, Out>) {
    q.slots == p.slots && q.payloads == p.payloads
  }

  /** The answered iteration is logged, and the next can begin. */
  ghost predicate Completes<S, In, Out>(p: Single<S, In, Out>, q: Single<S, In, Out>)
    requires p.stage.Answered?
  {
    q.stage.Ready? && q.slots == p.slots + [p.stage.slot] && q.payloads == p.payloads + [p.stage.output]
  }

  lemma {:induction false} ForeignRun<S, In, Out>(su: Setup<S, In, Out>, acts: seq<Action<In>>, more: seq<Action<In>>)
    requires forall i | 0 <= i < |more| :: !more[i].Iterate?
    ensures Undisturbed(Live(su, acts), Live(su, acts + more))
    ensures Visible(Live(su, acts + more)) == DisturbAll(su.capacity, Visible(Live(su, acts)), more)
    decreases |more|
  {
    if |more| == 0 {
      assert acts + more == acts;
    } else {
      var front, last := more[..|more| - 1], more[|more| - 1];
      ForeignRun(su, acts, front);
      assert acts + more == (acts + front) + [last];
      LiveSnoc(su, acts + front, last);
    }
  }

  class SingleWorld<S, In, Out> {
    ghost const su: Setup<S, In, Out>
    const link: Link<In, Out>
    ghost var trace: seq<Action<In>>

    ghost function State(): Single<S, In, Out>
      reads this
    {
      Live(su, trace)
    }

    ghost predicate Valid()
      reads this, link, link.rx, link.tx
    {
      && link.capacity == su.capacity && link.View() == Visible(State())
      && link.tx.accepted == State().outbound
      && Obeys(trace, link.schedule, link.at)
    }

    constructor (ghost su: Setup<S, In, Out>, capacity: Option<nat>, schedule: Schedule<In>)
      requires capacity == su.capacity
      ensures Valid() && trace == [] && this.su == su
      ensures fresh(link) && fresh(link.rx) && fresh(link.tx)
      ensures link.schedule == schedule && link.at == 0
    {
      this.su := su;
      link := new Link<In, Out>(capacity, schedule);
      trace := [];
    }

    /** One more step of this thread on record. */
    ghost method Iterated()
      modifies this`trace
      ensures trace == old(trace) + [Iterate] && State() == Iteration(su, old(State()))
      ensures Foreign(trace) == Foreign(old(trace))
    {
      trace := trace + [Iterate];
      LiveSnoc(su, old(trace), Iterate);
      ForeignSnoc(old(trace), Iterate);
    }

    /** The other threads act, as scheduled. */
    method Others()
      requires Valid()
      modifies this`trace, link, link.rx, link.tx`connected
      ensures Valid() && Undisturbed(old(State()), State())
      ensures link.View() == old(link.NextView())
      ensures old(link.rx.queue) <= link.rx.queue && old(link.clock) <= link.clock
      ensures trace == old(trace) + Foreign(link.schedule(old(link.at))) && link.at == old(link.at) + 1
    {
      ghost var acts := link.Others();
      ForeignRun(su, trace, acts);
      ForeignAppend(trace, acts);
      trace := trace + acts;
    }

    /** Pulls at most one message. */
    method TryRecv() returns (m: Option<In>)
      requires Valid() && State().stage.Ready?
      modifies this`trace, link, link.rx, link.tx`connected
      ensures Valid() && State().stage == Pulled(m)
      ensures State().state == old(State().state) && SameLog(old(State()), State())
      ensures var v := old(link.NextView());
        m == Head(v.queue) && link.View() == v.(queue := Tail(v.queue))
      ensures |old(link.rx.queue)| > 0 ==> m == Some(old(link.rx.queue)[0])
      ensures old(link.clock) <= link.clock
      ensures trace == old(trace) + Foreign(link.schedule(old(link.at))) + [Iterate] && link.at == old(link.at) + 1
    {
      Others();
      m := link.rx.TryRecv();
      Iterated();
    }

    /** The clock reading that stamps the slot, be it empty or not. */
    method ReadClock() returns (now: u64)
      requires Valid() && State().stage.Pulled?
      modifies this`trace, link, link.rx, link.tx`connected
      ensures Valid() && State().stage == Filled(Slot(old(State().stage.payload), Time(now)))
      ensures State().state == old(State().state) && SameLog(old(State()), State())
      ensures now == link.clock && link.View() == old(link.NextView()) && old(link.clock) <= link.clock
      ensures trace == old(trace) + Foreign(link.schedule(old(link.at))) + [Iterate] && link.at == old(link.at) + 1
    {
      Others();
      now := link.clock;
      Iterated();
    }

    /** The machine has taken its step; nothing shared is touched. */
    ghost method Stepped()
      requires Valid() && State().stage.Filled?
      modifies this`trace
      ensures Valid() && State() == Iteration(su, old(State()))
      ensures trace == old(trace) + [Iterate]
    {
      Iterated();
    }

    /** Sends the output, if there is one. */
    method Forward(payload: Option<Out>) returns (ok: bool)
      requires Valid() && State().stage.Answered? && State().stage.output == payload
      modifies this`trace, link, link.rx, link.tx
      ensures Valid() && State().state == old(State().state)
      ensures ok ==> Completes(old(State()), State())
      ensures !ok ==> State().stage.Stopped? && SameLog(old(State()), State())
      ensures link.tx.accepted == old(link.tx.accepted) + if ok then PayloadOf(payload) else []
      ensures link.View() == old(link.NextView())
      ensures ok <==> payload.None? || link.tx.connected
      ensures trace == old(trace) + Foreign(link.schedule(old(link.at))) + [Iterate] && link.at == old(link.at) + 1
    {
      Others();
      ok := Tasks.EgressStep(link.tx, payload);
      Iterated();
    }
  }

  class IngressTask<S, In, Out> {
    const rx: SingleWorld<S, In, Out>

    constructor (rx: SingleWorld<S, In, Out>)
      ensures this.rx == rx
    {
      this.rx := rx;
    }

    /** At most one message; the slot is stamped with the time even when it is empty. */
    method Process(newMsg: CuMsg<In>)
      requires rx.Valid() && rx.State().stage.Ready?
      modifies rx`trace, rx.link, rx.link.rx, rx.link.tx`connected, newMsg
      ensures rx.Valid() && rx.State().stage == Filled(newMsg.Contents()) && newMsg.tov.Time?
      ensures rx.State().state == old(rx.State().state) && SameLog(old(rx.State()), rx.State())
      ensures newMsg.payload == Head(old(rx.link.NextView()).queue)
      ensures |old(rx.link.rx.queue)| > 0 ==> newMsg.payload == Some(old(rx.link.rx.queue)[0])
      ensures newMsg.tov == Time(rx.link.clock) && old(rx.link.clock) <= rx.link.clock
      ensures old(rx.trace) <= rx.trace && rx.link.at == old(rx.link.at) + 2
    {
      var m := rx.TryRecv();
      newMsg.PutPayload(m);
      var now := rx.ReadClock();
      newMsg.tov := Time(now);
    }
  }

  class EgressTask<S, In, Out> {
    const tx: SingleWorld<S, In, Out>

    constructor (tx: SingleWorld<S, In, Out>)
      ensures this.tx == tx
    {
      this.tx := tx;
    }

    /** Forwards the payload, if there is one; the iteration is then complete. */
    method Process(input: CuMsg<Out>) returns (ok: bool)
      requires tx.Valid() && tx.State().stage.Answered? && tx.State().stage.output == input.payload
      modifies tx`trace, tx.link, tx.link.rx, tx.link.tx
      ensures tx.Valid() && tx.State().state == old(tx.State().state)
      ensures ok ==> Completes(old(tx.State()), tx.State())
      ensures !ok ==> tx.State().stage.Stopped? && SameLog(old(tx.State()), tx.State())
      ensures tx.link.tx.accepted == old(tx.link.tx.accepted) + if ok then PayloadOf(input.payload) else []
      ensures ok <==> input.payload.None? || tx.link.tx.connected
      ensures old(tx.trace) <= tx.trace && tx.link.at == old(tx.link.at) + 1
    {
      ok := tx.Forward(input.payload);
    }
  }

  class SingleApplication<S, In, Out> {
    const world: SingleWorld<S, In, Out>
    const ingress: IngressTask<S, In, Out>
    const fsm: FsmTask<S, In, Out>
    const egress: EgressTask<S, In, Out>
    const ctx: CuContext
    var slots: seq<Slot<In>>
    var payloads: seq<Option<Out>>

    ghost predicate Valid()
      reads this, world, world.link, world.link.rx, world.link.tx, fsm
    {
      && world.Valid() && fsm.machine == world.su.machine && fsm.state == world.State().state
      && ingress.rx == world && egress.tx == world
      && slots == world.State().slots && payloads == world.State().payloads
    }

    constructor (su: Setup<S, In, Out>, schedule: Schedule<In>, readings: nat -> u64)
      ensures Valid() && world.State() == Begin(su) && world.su == su && world.link.schedule == schedule
      ensures fresh(world) && fresh(world.link) && fresh(world.link.rx) && fresh(world.link.tx)
      ensures fresh(fsm) && fresh(ctx)
    {
      var channels := new SingleWorld<S, In, Out>(su, su.capacity, schedule);
      world := channels;
      ingress := new IngressTask<S, In, Out>(channels);
      fsm := new FsmTask<S, In, Out>(su.machine, su.cold);
      egress := new EgressTask<S, In, Out>(channels);
      ctx := new CuContext(readings);
      slots, payloads := [], [];
    }

    /** The source and the machine: what the iteration is about to send and to log is in the two slots. */
    method Produce(input: CuMsg<In>, output: CuMsg<Out>) returns (ok: bool)
      requires Valid() && world.State().stage.Ready? && input as object != output as object
      modifies world`trace, world.link, world.link.rx, world.link.tx`connected, fsm, ctx, input, output
      ensures Valid()
      ensures ok ==> world.State().stage == Answered(input.Contents(), output.payload)
      ensures !ok ==> world.State().stage.Stopped?
      ensures old(world.trace) <= world.trace
    {
      ingress.Process(input);
      var fault := fsm.Process(ctx, input, output);
      world.Stepped();
      ok := fault.None?;
    }

    /** The sink: the iteration is logged if what is in the output slot has been sent. */
    method Finish(input: CuMsg<In>, output: CuMsg<Out>) returns (ok: bool)
      requires Valid() && world.State().stage == Answered(input.Contents(), output.payload)
      modifies this`slots, this`payloads, world`trace, world.link, world.link.rx, world.link.tx
      ensures Valid() && old(world.trace) <= world.trace
      ensures ok ==> world.State().stage.Ready? && |slots| == |old(slots)| + 1
      ensures !ok ==> world.State().stage.Stopped? && slots == old(slots)
    {
      ok := egress.Process(output);
      if ok {
        slots, payloads := slots + [input.Contents()], payloads + [output.payload];
      }
    }

    /**
     One iteration. It fails when the machine emits too much or the transport has gone, and is then not
     logged.
     */
    method RunOneIteration() returns (ok: bool)
      requires Valid() && world.State().stage.Ready?
      modifies this`slots, this`payloads, world`trace, world.link, world.link.rx, world.link.tx, fsm, ctx
      ensures Valid() && old(world.trace) <= world.trace
      ensures ok ==> world.State().stage.Ready? && |slots| == |old(slots)| + 1
      ensures !ok ==> world.State().stage.Stopped? && slots == old(slots)
    {
      var input := new CuMsg<In>(None);
      var output := new CuMsg<Out>(None);
      ok := Produce(input, output);
      if ok {
        ok := Finish(input, output);
      }
    }

    /** Runs up to `n` iterations; a failed one is the last. */
    method RunLive(n: nat)
      requires Valid() && world.State().stage.Ready?
      modifies this`slots, this`payloads, world`trace, world.link, world.link.rx, world.link.tx, fsm, ctx
      ensures Valid() && old(world.trace) <= world.trace
      ensures world.State().stage.Ready? || world.State().stage.Stopped?
      ensures |slots| <= |old(slots)| + n && (world.State().stage.Ready? <==> |slots| == |old(slots)| + n)
      ensures |slots| == |old(slots)| + n || HangUp in world.trace || Overemitted(world.su, world.State())
    {
      var i := 0;
      while i < n
        invariant 0 <= i <= n
        invariant Valid() && world.State().stage.Ready? && |slots| == |old(slots)| + i
        invariant old(world.trace) <= world.trace
      {
        var ok := RunOneIteration();
        if !ok {
          StopsForCause(world.su, world.trace);
          return;
        }
        i := i + 1;
      }
    }
  }
}
