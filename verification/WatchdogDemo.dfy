/** The watchdog demonstration: a live run, its recording, and the replay. */
module WatchdogDemo {

  import opened Basics
  import opened Channels
  import opened Messages
  import opened Machines
  import opened Intake
  import opened Watchdog
  import opened WatchdogHistory
  import opened Timing
  import opened Replay
  import opened LogStream
  import opened LiveReplay
  import opened NegativeControl
  import opened Runtime

  /** One cycle of a history, in place. */
  method StepCycle(machine: WatchdogMachine, timeoutNs: u64, cs: Cycles, k: nat) returns (out: seq<Alarm>)
    requires k < |cs| && machine.Valid() && machine.Value() == After(timeoutNs, cs[..k])
    modifies machine`sm, machine.ctx, machine.ctx.store
    ensures machine.Valid() && machine.Value() == After(timeoutNs, cs[..k + 1])
    ensures out == AlarmsAt(timeoutNs, cs, k)
  {
    out := RunStepAll(machine, Message(cs[k]));
    StateAfterPrefix(OnCycle<Feed>, Cold(timeoutNs), cs, k);
  }

  /** The machine in place, stepped over a whole history, is the history's. */
  method ReplayCycles(machine: WatchdogMachine, timeoutNs: u64, cs: Cycles) returns (outs: seq<seq<Alarm>>)
    requires machine.Valid() && machine.Value() == Cold(timeoutNs)
    modifies machine`sm, machine.ctx, machine.ctx.store
    ensures machine.Valid() && machine.Value() == After(timeoutNs, cs)
    ensures outs == Alarms(timeoutNs, cs)
  {
    outs := [];
    var k := 0;
    while k < |cs|
      invariant 0 <= k <= |cs| && machine.Valid()
      invariant machine.Value() == After(timeoutNs, cs[..k])
      invariant outs == Alarms(timeoutNs, cs[..k])
    {
      var out := StepCycle(machine, timeoutNs, cs, k);
      assert cs[..k + 1] == cs[..k] + [cs[k]];
      AnswersSnoc(OnCycle<Feed>, Cold(timeoutNs), cs[..k], cs[k]);
      outs := outs + [out];
      k := k + 1;
    }
    assert cs[..k] == cs;
  }

  /** The alarms of a recording, batch after batch. */
  method CollectAlarms(recording: AlarmLog) returns (alarms: seq<Alarm>)
    ensures alarms == Flatten(RecordedBatches(recording))
  {
    alarms := [];
    var i := 0;
    while i < |recording|
      invariant 0 <= i <= |recording|
      invariant alarms == Flatten(RecordedBatches(recording[..i]))
    {
      assert RecordedBatches(recording[..i + 1]) == RecordedBatches(recording[..i]) + [ValuesOf(recording[i].output)];
      FlattenSnoc(RecordedBatches(recording[..i]), ValuesOf(recording[i].output));
      alarms := alarms + ValuesOf(recording[i].output);
      i := i + 1;
    }
    assert recording[..i] == recording;
  }

  function RecordedBatches(recording: AlarmLog): seq<seq<Alarm>> {
    seq(|recording|, i requires 0 <= i < |recording| => ValuesOf(recording[i].output))
  }

  /** The machine has been stepped over the first `k` records. */
  ghost predicate InStep(machine: WatchdogMachine, timeoutNs: u64, rec: AlarmLog, k: nat)
    requires k <= |rec|
    reads machine, machine.ctx, machine.ctx.store
  {
    machine.Valid() && machine.Value() == After(timeoutNs, Inputs(rec)[..k])
  }

  /** The step that the gate is given: the next record's cycle in, an optional batch out. */
  method ReplayOne<E(==)>(machine: WatchdogMachine, timeoutNs: u64, rec: AlarmLog, k: nat,
                          ghost g: Gate<Model, Cycle<Feed>, Option<Batch<Alarm>>, E>)
      returns (replayed: Option<Batch<Alarm>>)
    requires k < |rec| && InStep(machine, timeoutNs, rec, k)
    requires g == WatchdogGate(timeoutNs, g.encode)
    modifies machine`sm, machine.ctx, machine.ctx.store
    ensures InStep(machine, timeoutNs, rec, k + 1)
    ensures replayed == ReplayedAt(g, rec, k)
  {
    var out := StepCycle(machine, timeoutNs, Inputs(rec), k);
    BatchStepOutput<Model, Feed, Alarm>(OnCycle, Cold(timeoutNs), Inputs(rec), k);
    replayed := BatchOf(out);
  }

  /** The gate over a recording, with the machine in place: the same report. */
  method ReplayThrough<E(==)>(machine: WatchdogMachine, timeoutNs: u64, rec: AlarmLog,
                              g: Gate<Model, Cycle<Feed>, Option<Batch<Alarm>>, E>, overflowChecks: bool)
      returns (report: Option<GateReport<Cycle<Feed>, Option<Batch<Alarm>>>>)
    requires InStep(machine, timeoutNs, rec, 0)
    requires g == WatchdogGate(timeoutNs, g.encode)
    modifies machine`sm, machine.ctx, machine.ctx.store
    ensures report.None? <==> Overflows(rec, overflowChecks)
    ensures report.Some? ==> IsReport(g, rec, report.value)
  {
    var r := GateReport(|rec|, 0, None, []);
    var prev: Option<u64> := None;
    var k := 0;
    while k < |rec|
      invariant 0 <= k <= |rec| && InStep(machine, timeoutNs, rec, k)
      invariant Standing(g, rec, k, r, prev, overflowChecks)
    {
      var replayed := ReplayOne(machine, timeoutNs, rec, k, g);
      var noted := NoteRecord(g, rec, k, r, prev, replayed, overflowChecks);
      if noted.None? {
        return None;
      }
      r, prev := noted.value, Some(rec[k].id);
      k := k + 1;
    }
    StandingAtEnd(g, rec, r, prev, overflowChecks);
    report := Some(r);
  }

  /** Replays a recording through a fresh machine. */
  method ReplayRecording<E(==)>(timeoutNs: u64, rec: AlarmLog, encode: Option<Batch<Alarm>> -> Option<E>,
                                overflowChecks: bool)
      returns (report: Option<GateReport<Cycle<Feed>, Option<Batch<Alarm>>>>)
    ensures report.None? <==> Overflows(rec, overflowChecks)
    ensures report.Some? ==> IsReport(WatchdogGate(timeoutNs, encode), rec, report.value)
  {
    var machine := new WatchdogMachine(timeoutNs);
    report := ReplayThrough(machine, timeoutNs, rec, WatchdogGate(timeoutNs, encode), overflowChecks);
  }

  /** `recording` and `live` are the log and the transport's receipts of the service's run `acts`. */
  ghost predicate Recounts(limits: Limits, timeoutNs: u64, firstId: u64, acts: seq<Action<Feed>>,
                           recording: AlarmLog, live: seq<Alarm>)
  {
    var p := Trace(limits, timeoutNs, acts);
    && Numbered(firstId, |p.log|) && recording == RecordingOf(firstId, p.log) && live == p.outbound
  }

  /** The service, live under the given schedule: what was sent, and the log. */
  method RunService(limits: Limits, timeoutNs: u64, schedule: Schedule<Feed>, readings: nat -> u64,
                    iterations: nat, firstId: u64)
      returns (live: seq<Alarm>, recording: AlarmLog, ghost acts: seq<Action<Feed>>, ghost turns: nat)
    requires Numbered(firstId, iterations)
    ensures Recounts(limits, timeoutNs, firstId, acts, recording, live) && Obeys(acts, schedule, turns)
    ensures |recording| <= iterations
    ensures |recording| == iterations ==> live == Flatten(RecordedBatches(recording))
    ensures (forall k: nat :: HangUp !in schedule(k)) ==> |recording| == iterations
  {
    ghost var cfg := WatchdogService(limits, timeoutNs);
    var app := new Application<Model, Feed, Alarm>(OnTrigger, Cold(timeoutNs), limits, schedule, readings, cfg);
    app.RunLive(iterations);
    acts, turns := app.world.trace, app.world.link.at;
    live := app.world.link.tx.accepted;
    recording := RecordingOf(firstId, app.log);
    assert RecordedBatches(recording) == LoggedBatches(app.log);
    LogHoldsWhatWasSent(cfg, acts);
    if HangUp in acts { HangUpIsScheduled(acts, schedule, turns); }
  }

  lemma ClearingKeepsIds(rec: AlarmLog, a: nat, overflowChecks: bool)
    requires a < |rec| && !Overflows(rec, overflowChecks)
    ensures !Overflows(Cleared(rec, a), overflowChecks)
  {
    assert forall i | 0 <= i < |rec| :: Cleared(rec, a)[i].id == rec[i].id;
  }

  /** The recording of a live run, and what its replay and its negative control must say. */
  ghost predicate Demonstrated<E(!new)>(rec: AlarmLog, encode: Option<Batch<Alarm>> -> Option<E>,
                                        report: GateReport<Cycle<Feed>, Option<Batch<Alarm>>>,
                                        control: Option<GateReport<Cycle<Feed>, Option<Batch<Alarm>>>>)
  {
    && (|rec| > 0 ==> report.Passed())
    && (control.None? <==> forall i | 0 <= i < |rec| :: !ArmsAt(rec, i))
    && (control.Some? && InjectiveEncoding(encode) ==> exists a :: FirstArmed(rec, a) && Exposes(rec, a, control.value))
  }

  /**
   The whole demonstration: run live under a schedule, write the log and read it back, compare its
   alarms with those sent, replay it through a fresh machine, and replay the negative control. The
   recording is that of a run in which the others acted as scheduled; if any iteration finished, the
   gate passes; if all did, the log holds exactly the alarms that were sent; and if the watchdog ever
   armed, the control fails.
   */
  method RecordAndReplay<E(==, !new)>(limits: Limits, timeoutNs: u64, schedule: Schedule<Feed>, readings: nat -> u64,
                                      iterations: nat, firstId: u64, codec: Codec<Copperlist<Feed, Alarm>>,
                                      encode: Option<Batch<Alarm>> -> Option<E>, overflowChecks: bool)
      returns (live: seq<Alarm>, recording: AlarmLog, alarms: seq<Alarm>,
               report: Option<GateReport<Cycle<Feed>, Option<Batch<Alarm>>>>,
               control: Option<GateReport<Cycle<Feed>, Option<Batch<Alarm>>>>)
    requires Numbered(firstId, iterations) && Lawful(codec)
    ensures exists acts, n ::
      Recounts(limits, timeoutNs, firstId, acts, recording, live) && Obeys(acts, schedule, n)
    ensures |recording| <= iterations
    ensures alarms == Flatten(RecordedBatches(recording))
    ensures |recording| == iterations ==> alarms == live
    ensures (forall k: nat :: HangUp !in schedule(k)) ==> |recording| == iterations
    ensures report.Some? && Demonstrated(recording, encode, report.value, control)
  {
    var logged;
    ghost var acts, turns;
    live, logged, acts, turns := RunService(limits, timeoutNs, schedule, readings, iterations, firstId);
    var end;
    recording, end := ReadCopperlists(codec.decode, WriteAll(codec, logged));
    ReadBack(codec, logged);
    assert recording == logged && end == LogEnd.Eof;
    alarms := CollectAlarms(recording);
    NoOverflow(firstId, Trace(limits, timeoutNs, acts).log, overflowChecks);
    report := ReplayRecording(timeoutNs, recording, encode, overflowChecks);
    if |recording| > 0 {
      EveryRunReplays(WatchdogService(limits, timeoutNs), acts, firstId, encode, overflowChecks, report.value);
    }
    var perturbed, at := Perturb(recording);
    control := None;
    if perturbed.Some? {
      ClearingKeepsIds(recording, at, overflowChecks);
      control := ReplayRecording(timeoutNs, perturbed.value, encode, overflowChecks);
      if InjectiveEncoding(encode) {
        LiveIsHonest(limits, timeoutNs, acts, firstId);
        NegativeControlFails(timeoutNs, recording, encode, at);
      }
    }
  }
}
