/** The live run: iterations of ingress, machine and egress, each leaving a copperlist. */
module Runtime {

  import opened Basics
  import opened Channels
  import opened Messages
  import opened Intake
  import opened Pipeline
  import opened Delivery
  import opened FsmAdapters
  import opened Tasks

  /** The machine behind the adapter is the pipeline's: a cycle arrives as a message. */
  ghost predicate Implements<S(!new), T(!new), Out>(machine: Machine<S, Cycle<T>, Out>, cfg: Config<S, T, Out>) {
    forall s, c :: machine(s, Message(c)) == cfg.step(s, c)
  }

  class Application<S(!new), T(!new), Out> {
    const world: World<S, T, Out>
    const ingress: CycleIngressTask<S, T, Out>
    const fsm: FsmBatchTask<S, Cycle<T>, Out>
    const egress: BatchEgressTask<S, T, Out>
    const ctx: CuContext
    var log: seq<Entry<T, Out>>

    ghost predicate Valid()
      reads this, world, world.link, world.link.rx, world.link.tx, fsm
    {
      && world.Valid() && Implements(fsm.machine, world.cfg)
      && ingress.rx == world && ingress.maxBatch == world.limits.maxBatch && egress.tx == world
      && log == world.State().log && fsm.state == world.State().state
    }

    constructor (machine: Machine<S, Cycle<T>, Out>, cold: S, limits: Limits,
                 schedule: Schedule<T>, readings: nat -> u64, ghost cfg: Config<S, T, Out>)
      requires cfg.limits == limits && cfg.init == cold && Implements(machine, cfg)
      ensures Valid() && world.State() == Init(cfg) && world.cfg == cfg && world.link.schedule == schedule
      ensures fresh(world) && fresh(world.link) && fresh(world.link.rx) && fresh(world.link.tx)
      ensures fresh(fsm) && fresh(ctx)
    {
      var channels := new World<S, T, Out>(cfg, limits, schedule);
      world := channels;
      ingress := new CycleIngressTask<S, T, Out>(channels, limits.maxBatch);
      fsm := new FsmBatchTask<S, Cycle<T>, Out>(machine, cold);
      egress := new BatchEgressTask<S, T, Out>(channels);
      ctx := new CuContext(readings);
      log := [];
    }

    /** The source and the machine: what the iteration is about to send and to log is in the two slots. */
    method Produce(cycle: CuMsg<Cycle<T>>, batch: CuMsg<Batch<Out>>)
      requires Valid() && Idle(world.State())
      modifies world`trace, world.link, world.link.rx, world.link.tx`connected, fsm, ctx, cycle, batch
      ensures Valid() && cycle.payload.Some?
      ensures world.State().stage == Sending(Entry(cycle.payload.value, batch.payload), ValuesOf(batch.payload))
      ensures world.State().line.phase.Between?
      ensures old(world.trace) <= world.trace && old(world.link.at) <= world.link.at
    {
      ingress.Process(cycle);
      ghost var c := cycle.payload.value;
      assert fsm.machine(fsm.state, Message(c)) == world.cfg.step(fsm.state, c);
      fsm.Process(ctx, cycle, batch);
      world.Stepped();
    }

    /** The sink: a copperlist is written if everything in the batch has been sent. */
    method Finish(cycle: CuMsg<Cycle<T>>, batch: CuMsg<Batch<Out>>) returns (ok: bool)
      requires Valid() && cycle.payload.Some? && world.State().line.phase.Between?
      requires world.State().stage == Sending(Entry(cycle.payload.value, batch.payload), ValuesOf(batch.payload))
      modifies this`log, world`trace, world.link, world.link.rx, world.link.tx
      ensures Valid() && old(world.trace) <= world.trace && old(world.link.at) <= world.link.at
      ensures ok ==> Idle(world.State()) && log == old(log) + [Entry(cycle.payload.value, batch.payload)]
      ensures !ok ==> world.State().stage.Faulted? && log == old(log)
    {
      ok := egress.Process(batch);
      if ok {
        log := log + [Entry(cycle.payload.value, batch.payload)];
        world.Logged();
      }
    }

    /** One iteration. It fails only when the transport has gone, and then writes no copperlist. */
    method RunOneIteration() returns (ok: bool)
      requires Valid() && Idle(world.State())
      modifies this`log, world`trace, world.link, world.link.rx, world.link.tx, fsm, ctx
      ensures Valid()
      ensures ok ==> Idle(world.State()) && |log| == |old(log)| + 1
      ensures !ok ==> world.State().stage.Faulted? && log == old(log)
      ensures old(world.trace) <= world.trace && old(world.link.at) <= world.link.at
    {
      var cycle := new CuMsg<Cycle<T>>(None);
      var batch := new CuMsg<Batch<Out>>(None);
      Produce(cycle, batch);
      ok := Finish(cycle, batch);
    }

    /** Runs up to `n` iterations; a failed one is the last. */
    method RunLive(n: nat)
      requires Valid() && Idle(world.State())
      modifies this`log, world`trace, world.link, world.link.rx, world.link.tx, fsm, ctx
      ensures Valid() && log == Run(world.cfg, world.trace).log
      ensures Idle(world.State()) || world.State().stage.Faulted?
      ensures old(world.trace) <= world.trace && Obeys(world.trace, world.link.schedule, world.link.at)
      ensures |log| <= |old(log)| + n && (Idle(world.State()) <==> |log| == |old(log)| + n)
      ensures |log| == |old(log)| + n || HangUp in world.trace
    {
      var i := 0;
      while i < n
        invariant 0 <= i <= n
        invariant Valid() && Idle(world.State()) && |log| == |old(log)| + i
        invariant old(world.trace) <= world.trace
      {
        var ok := RunOneIteration();
        if !ok {
          EgressPrefix(world.cfg, world.trace);
          return;
        }
        i := i + 1;
      }
    }
  }
}
