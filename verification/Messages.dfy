/** The values that travel between the tasks of one iteration. */
module Messages {

  import opened Basics

  /** What caused a machine step: the passing of time, or an inbound message. */
  datatype Trigger<+In> = Tick(ns: u64) | Message(msg: In)

  /** The messages drained in one iteration, with the time read after the drain. */
  datatype Cycle<+T> = Cycle(nowNs: u64, events: seq<T>, pending: nat)

  /** Everything one step emitted, carried as one message. */
  datatype Batch<+T> = Batch(values: seq<T>)

  /** Time of validity of a message slot. */
  datatype Tov = NoTime | Time(ns: u64) | Range(start: u64, end: u64)

  /** The payload a batch adapter writes: nothing at all when nothing was emitted. */
  function BatchOf<T>(outs: seq<T>): (b: Option<Batch<T>>)
    ensures b.None? <==> outs == []
    ensures b.Some? ==> b.value.values == outs
  {
    if |outs| == 0 then None else Some(Batch(outs))
  }

  /** The values in an optional batch. */
  function ValuesOf<T>(b: Option<Batch<T>>): seq<T> {
    if b.Some? then b.value.values else []
  }
}
