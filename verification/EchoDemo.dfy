/** The echo demonstration: a live run, its log read back, and the replay, in place. */
module EchoDemo {

  import opened Basics
  import opened Channels
  import opened Messages
  import opened EffectsBuffer
  import opened FsmAdapters
  import opened LogStream
  import opened SinglePipeline
  import opened SingleTasks
  import opened Echo

  /** What the log keeps of an iteration: the ingress slot and the echo, if there was one. */
  datatype EchoCopperlist = EchoCopperlist(ingress: Slot<EchoMsg>, echo: Option<EchoMsg>)

  datatype EchoRecord = EchoRecord(inputs: seq<Trigger<EchoMsg>>, outputs: seq<EchoMsg>)

  function Ingresses(cls: seq<EchoCopperlist>): (slots: seq<Slot<EchoMsg>>)
    ensures |slots| == |cls|
    ensures forall i | 0 <= i < |cls| :: slots[i] == cls[i].ingress
  {
    seq(|cls|, i requires 0 <= i < |cls| => cls[i].ingress)
  }

  function Payloads(cls: seq<EchoCopperlist>): (ps: seq<Option<EchoMsg>>)
    ensures |ps| == |cls|
    ensures forall i | 0 <= i < |cls| :: ps[i] == cls[i].echo
  {
    seq(|cls|, i requires 0 <= i < |cls| => cls[i].echo)
  }

  /** An empty ingress slot without a plain time cannot be replayed. */
  predicate Timeless(cl: EchoCopperlist) {
    cl.ingress.payload.None? && !cl.ingress.tov.Time?
  }

  /** The record of some copperlists: the triggers of their slots, and the echoes in them. */
  function RecordOf(cls: seq<EchoCopperlist>): EchoRecord {
    EchoRecord(LoggedTriggers(Ingresses(cls)), Forwarded(Payloads(cls)))
  }

  lemma RecordSnoc(cls: seq<EchoCopperlist>, cl: EchoCopperlist)
    ensures RecordOf(cls + [cl]) ==
      EchoRecord(RecordOf(cls).inputs + [TriggerOf(cl.ingress, 0)],
                 RecordOf(cls).outputs + if cl.echo.Some? then [cl.echo.value] else [])
  {
    assert Ingresses(cls + [cl]) == Ingresses(cls) + [cl.ingress];
    assert Payloads(cls + [cl]) == Payloads(cls) + [cl.echo];
    TriggersSnoc(Ingresses(cls), cl.ingress);
    ForwardedSnoc(Payloads(cls), cl.echo);
  }

  /** The input that a copperlist stands for, or the time that makes it impossible to tell. */
  method InputOf(cl: EchoCopperlist) returns (input: Result<Trigger<EchoMsg>, Tov>)
    ensures input.Err? <==> Timeless(cl)
    ensures input.Err? ==> input.error == cl.ingress.tov
    ensures input.Ok? <==> cl.ingress.payload.Some? || cl.ingress.tov.Time?
    ensures cl.ingress.payload.Some? ==> input == Ok(Message(cl.ingress.payload.value))
    ensures cl.ingress.payload.None? && cl.ingress.tov.Time? ==> input == Ok(Tick(cl.ingress.tov.ns))
    ensures input.Ok? ==> input.value == TriggerOf(cl.ingress, 0)
  {
    match cl.ingress.payload
    case Some(msg) => input := Ok(Message(msg));
    case None =>
      match cl.ingress.tov
      case Time(t) => input := Ok(Tick(t));
      case tov => input := Err(tov);
  }

  /** One copperlist more: its slot's input, and its echo if there is one. */
  method NoteCopperlist(record: EchoRecord, cl: EchoCopperlist, ghost done: seq<EchoCopperlist>)
      returns (noted: Result<EchoRecord, Tov>)
    requires record == RecordOf(done)
    ensures noted.Err? <==> Timeless(cl)
    ensures noted.Err? ==> noted.error == cl.ingress.tov
    ensures noted.Ok? ==> noted.value == RecordOf(done + [cl])
  {
    var input := InputOf(cl);
    if input.Err? {
      return Err(input.error);
    }
    RecordSnoc(done, cl);
    var next := record.(inputs := record.inputs + [input.value]);
    if cl.echo.Some? {
      next := next.(outputs := next.outputs + [cl.echo.value]);
    }
    noted := Ok(next);
  }

  /** The first copperlist that cannot be replayed, and the time it is recorded with. */
  ghost predicate FirstTimeless(cls: seq<EchoCopperlist>, i: nat, tov: Tov) {
    && i < |cls| && Timeless(cls[i]) && tov == cls[i].ingress.tov
    && forall j | 0 <= j < i :: !Timeless(cls[j])
  }

  /** `done` has been read, and the stream goes on at `at`. */
  ghost predicate ReadUpTo(decode: Decoder<EchoCopperlist>, bytes: seq<Byte>, at: nat, done: seq<EchoCopperlist>)
    requires Consumes(decode)
  {
    at <= |bytes| && ReadAll(decode, bytes).0 == done + ReadAll(decode, bytes[at..]).0
  }

  lemma ReadStart(decode: Decoder<EchoCopperlist>, bytes: seq<Byte>)
    requires Consumes(decode)
    ensures ReadUpTo(decode, bytes, 0, []) && RecordOf([]) == EchoRecord([], [])
  {
    assert bytes[0..] == bytes;
    assert [] + ReadAll(decode, bytes).0 == ReadAll(decode, bytes).0;
  }

  ghost predicate NoneTimeless(cls: seq<EchoCopperlist>) {
    forall i | 0 <= i < |cls| :: !Timeless(cls[i])
  }

  lemma ReadNext(decode: Decoder<EchoCopperlist>, bytes: seq<Byte>, at: nat, done: seq<EchoCopperlist>)
    requires Consumes(decode) && ReadUpTo(decode, bytes, at, done) && NoneTimeless(done)
    ensures var d := decode(bytes[at..]); var cls := ReadAll(decode, bytes).0;
      && (d.Record? ==> at < at + d.used && ReadUpTo(decode, bytes, at + d.used, done + [d.value]))
      && (d.Record? && !Timeless(d.value) ==> NoneTimeless(done + [d.value]))
      && (d.Record? && Timeless(d.value) ==> FirstTimeless(cls, |done|, d.value.ingress.tov))
      && (!d.Record? ==> cls == done)
  {
    var d := decode(bytes[at..]);
    if d.Record? {
      assert bytes[at..][d.used..] == bytes[at + d.used..];
      AppendAssoc(done, [d.value], ReadAll(decode, bytes[at + d.used..]).0);
    }
  }

  /**
   Reads the log until the first thing that is not a record, be it the end or damage. A slot that cannot
   be replayed ends the program; it is then the first such slot whose time is complained of.
   */
  method ReadRecorded(decode: Decoder<EchoCopperlist>, bytes: seq<Byte>) returns (r: Result<EchoRecord, Tov>)
    requires Consumes(decode)
    ensures var cls := ReadAll(decode, bytes).0;
      && (r.Ok? ==> r.value == RecordOf(cls) && NoneTimeless(cls))
      && (r.Err? ==> exists i :: FirstTimeless(cls, i, r.error))
  {
    var record := EchoRecord([], []);
    ghost var done: seq<EchoCopperlist> := [];
    var at := 0;
    ReadStart(decode, bytes);
    while true
      invariant 0 <= at && ReadUpTo(decode, bytes, at, done)
      invariant NoneTimeless(done)
      invariant record == RecordOf(done)
      decreases |bytes| - at
    {
      ReadNext(decode, bytes, at, done);
      match decode(bytes[at..]) {
        case Record(cl, used) =>
          var next := NoteCopperlist(record, cl, done);
          if next.Err? {
            return Err(next.error);
          }
          record := next.value;
          done := done + [cl];
          at := at + used;
        case _ =>
          return Ok(record);
      }
    }
  }

  /** A step in isolation. The echo machine never emits twice, so there is always an answer. */
  method RunStep(machine: EchoMachine, trigger: Trigger<EchoMsg>) returns (out: Option<EchoMsg>)
    modifies machine.ctx, machine.ctx.store
    ensures machine.ctx.store.count == OnEcho(old(machine.ctx.store.count), trigger).0
    ensures One(OnEcho(old(machine.ctx.store.count), trigger).1) == Ok(out)
  {
    var effects := new Effects<EchoMsg>();
    machine.Step(trigger, effects);
    assert effects.outbox == OnEcho(old(machine.ctx.store.count), trigger).1;
    var one := effects.TakeOne();
    out := one.value;
  }

  /** The state and the echoes of a run that has not faulted. */
  ghost predicate EchoRun(ts: seq<Trigger<EchoMsg>>, count: u64, outs: seq<EchoMsg>) {
    var r := RunTask(OnEcho, 0, ts);
    r.fault.None? && r.state == count && Forwarded(r.payloads) == outs
  }

  lemma EchoRunSnoc(ts: seq<Trigger<EchoMsg>>, count: u64, outs: seq<EchoMsg>, t: Trigger<EchoMsg>,
                    out: Option<EchoMsg>)
    requires EchoRun(ts, count, outs) && One(OnEcho(count, t).1) == Ok(out)
    ensures EchoRun(ts + [t], OnEcho(count, t).0, outs + PayloadOf(out))
  {
    RunTaskSnoc(OnEcho, 0, ts, t, out);
    ForwardedSnoc(RunTask(OnEcho, 0, ts).payloads, out);
  }

  /** One recorded input more. */
  method ReplayOne(machine: EchoMachine, t: Trigger<EchoMsg>, outs: seq<EchoMsg>, ghost ts: seq<Trigger<EchoMsg>>)
      returns (more: seq<EchoMsg>)
    requires EchoRun(ts, machine.ctx.store.count, outs)
    modifies machine.ctx, machine.ctx.store
    ensures EchoRun(ts + [t], machine.ctx.store.count, more)
  {
    ghost var count := machine.ctx.store.count;
    var out := RunStep(machine, t);
    EchoRunSnoc(ts, count, outs, t, out);
    more := outs + PayloadOf(out);
  }

  /** The echoes of a fresh machine over recorded inputs. */
  method Replay(inputs: seq<Trigger<EchoMsg>>) returns (outs: seq<EchoMsg>)
    ensures outs == Forwarded(RunTask(OnEcho, 0, inputs).payloads)
    ensures RunTask(OnEcho, 0, inputs).fault.None?
  {
    var machine := new EchoMachine();
    outs := [];
    ghost var done: seq<Trigger<EchoMsg>> := [];
    for k := 0 to |inputs|
      invariant fresh(machine.ctx) && fresh(machine.ctx.store)
      invariant done == inputs[..k] && EchoRun(done, machine.ctx.store.count, outs)
    {
      outs := ReplayOne(machine, inputs[k], outs, done);
      done := done + [inputs[k]];
    }
    assert done == inputs;
  }

  /** The copperlists of a run's slots and payloads. */
  function Copperlists(slots: seq<Slot<EchoMsg>>, payloads: seq<Option<EchoMsg>>): (cls: seq<EchoCopperlist>)
    requires |slots| == |payloads|
    ensures Ingresses(cls) == slots && Payloads(cls) == payloads
  {
    var cls := seq(|slots|, i requires 0 <= i < |slots| => EchoCopperlist(slots[i], payloads[i]));
    assert Ingresses(cls) == slots && Payloads(cls) == payloads;
    cls
  }

  /** The log of the service's run `acts`, and what it sent back. */
  ghost predicate Recounts(capacity: Option<nat>, acts: seq<Action<EchoMsg>>, log: seq<EchoCopperlist>,
                           live: seq<EchoMsg>)
  {
    var p := Live(EchoService(capacity), acts);
    Ingresses(log) == p.slots && Payloads(log) == p.payloads && live == p.outbound
  }

  /** The service, live under the given schedule: what was sent back, and the log. */
  method RunService(capacity: Option<nat>, schedule: Schedule<EchoMsg>, readings: nat -> u64, iterations: nat)
      returns (live: seq<EchoMsg>, log: seq<EchoCopperlist>, ghost acts: seq<Action<EchoMsg>>, ghost turns: nat)
    ensures Recounts(capacity, acts, log, live) && Obeys(acts, schedule, turns) && |log| <= iterations
    ensures (forall k: nat :: HangUp !in schedule(k)) ==> |log| == iterations
  {
    var app := new SingleApplication<u64, EchoMsg, EchoMsg>(EchoService(capacity), schedule, readings);
    app.RunLive(iterations);
    acts, turns := app.world.trace, app.world.link.at;
    live := app.world.link.tx.accepted;
    LiveKept(EchoService(capacity), acts);
    log := Copperlists(app.slots, app.payloads);
    if HangUp in acts { HangUpIsScheduled(acts, schedule, turns); }
  }

  /** What the log of a run says, by the run's own account. */
  lemma LogTells(capacity: Option<nat>, acts: seq<Action<EchoMsg>>, log: seq<EchoCopperlist>, live: seq<EchoMsg>)
    requires Recounts(capacity, acts, log, live)
    ensures NoneTimeless(log)
    ensures live == RecordOf(log).outputs
    ensures live == Forwarded(RunTask(OnEcho, 0, RecordOf(log).inputs).payloads)
    ensures live == Live(EchoService(capacity), acts).outbound
    ensures exists n: nat ::
      EchoedUpTo(Live(EchoService(capacity), acts), n) && |live| == n
      && AreEchoesOf(live, Live(EchoService(capacity), acts).sent[..n])
  {
    LiveKept(EchoService(capacity), acts);
    var p := Live(EchoService(capacity), acts);
    forall i | 0 <= i < |log| ensures !Timeless(log[i]) {
      assert log[i].ingress == p.slots[i];
    }
    var n := EchoesAPrefix(capacity, acts);
  }

  /**
   The whole demonstration: run live under a schedule, write the log and read it back, and replay it
   through a fresh machine. What is replayed is what the log holds and what was sent back, which is the
   echoes of a prefix of the messages sent.
   */
  method RecordAndReplay(capacity: Option<nat>, schedule: Schedule<EchoMsg>, readings: nat -> u64, iterations: nat,
                         codec: Codec<EchoCopperlist>)
      returns (live: seq<EchoMsg>, recorded: Result<EchoRecord, Tov>, replayed: seq<EchoMsg>)
    requires Lawful(codec)
    ensures recorded.Ok? && replayed == recorded.value.outputs == live
    ensures |recorded.value.inputs| <= iterations
    ensures (forall k: nat :: HangUp !in schedule(k)) ==> |recorded.value.inputs| == iterations
    ensures exists acts, turns, n: nat ::
      Obeys(acts, schedule, turns) && EchoedUpTo(Live(EchoService(capacity), acts), n)
      && live == Live(EchoService(capacity), acts).outbound
      && |live| == n && AreEchoesOf(live, Live(EchoService(capacity), acts).sent[..n])
  {
    var log;
    ghost var acts, turns;
    live, log, acts, turns := RunService(capacity, schedule, readings, iterations);
    LogTells(capacity, acts, log, live);
    ReadBack(codec, log);
    recorded := ReadRecorded(codec.decode, WriteAll(codec, log));
    replayed := Replay(recorded.value.inputs);
  }
}
