/** What replaying the log of a live run shows, and what the negative control shows. */
module LiveReplay {

  import opened Basics
  import opened Channels
  import opened Messages
  import opened Machines
  import opened Intake
  import opened Pipeline
  import opened Replay
  import opened LogStream

  type Copperlist<T, Out> = Recorded<Cycle<T>, Option<Batch<Out>>>

  /** The step that a replay compares: the cycle in, an optional batch out. */
  function BatchStep<S, T, Out>(step: StepOf<S, Cycle<T>, seq<Out>>): StepOf<S, Cycle<T>, Option<Batch<Out>>> {
    (s: S, c: Cycle<T>) => (step(s, c).0, BatchOf(step(s, c).1))
  }

  /** A gate over a cold copy of the pipeline's machine. */
  function LiveGate<S, T, Out, E>(cfg: Config<S, T, Out>, encode: Option<Batch<Out>> -> Option<E>)
    : Gate<S, Cycle<T>, Option<Batch<Out>>, E>
  {
    Gate(BatchStep(cfg.step), cfg.init, encode)
  }

  lemma {:induction false} BatchStepState<S, T, Out>(step: StepOf<S, Cycle<T>, seq<Out>>, s: S, cs: seq<Cycle<T>>)
    ensures StateAfter(BatchStep(step), s, cs) == StateAfter(step, s, cs)
    decreases |cs|
  {
    if |cs| > 0 { BatchStepState(step, s, cs[..|cs| - 1]); }
  }

  lemma BatchStepOutput<S, T, Out>(step: StepOf<S, Cycle<T>, seq<Out>>, s: S, cs: seq<Cycle<T>>, i: nat)
    requires i < |cs|
    ensures OutputAt(BatchStep(step), s, cs, i) == BatchOf(OutputAt(step, s, cs, i))
  {
    BatchStepState(step, s, cs[..i]);
  }

  /** The identifiers of the copperlists are contiguous and do not run out. */
  predicate Numbered(firstId: u64, n: nat) {
    firstId + n <= MAX_U64 + 1
  }

  /** The log as the reader hands it to the gate. */
  function RecordingOf<T, Out>(firstId: u64, log: seq<Entry<T, Out>>): (rec: seq<Copperlist<T, Out>>)
    requires Numbered(firstId, |log|)
    ensures |rec| == |log|
    ensures forall i | 0 <= i < |log| :: rec[i] == Recorded(firstId + i, log[i].cycle, log[i].output)
  {
    seq(|log|, i requires 0 <= i < |log| => Recorded(firstId + i, log[i].cycle, log[i].output))
  }

  /** Identifiers that do not run out never overflow in the gate. */
  lemma NoOverflow<T, Out>(firstId: u64, log: seq<Entry<T, Out>>, overflowChecks: bool)
    requires Numbered(firstId, |log|)
    ensures !Overflows(RecordingOf(firstId, log), overflowChecks)
  {
  }

  /** The log's entries are the cycles and the cold machine's answers to them. */
  lemma LogFollowsCycles<S, T, Out>(cfg: Config<S, T, Out>, cs: seq<Cycle<T>>, state: S, outs: seq<seq<Out>>,
                                    outbound: seq<Out>, connected: bool, stage: Stage<T, Out>,
                                    log: seq<Entry<T, Out>>, i: nat)
    requires RecordsOk(cfg, cs, state, outs, outbound, connected, stage, log) && i < |log|
    ensures |log| <= |cs|
    ensures log[i] == Entry(cs[i], BatchOf(OutputAt(cfg.step, cfg.init, cs, i)))
  {
  }

  /** Whatever a log records is what a cold machine answers. */
  lemma LogIsReplayed<S, T, Out>(cfg: Config<S, T, Out>, acts: seq<Action<T>>, firstId: u64, i: nat)
    requires i < |Run(cfg, acts).log| && Numbered(firstId, |Run(cfg, acts).log|)
    ensures var rec := RecordingOf(firstId, Run(cfg, acts).log);
      && i < |Run(cfg, acts).line.turns| && rec[i].input == Run(cfg, acts).line.turns[i].cycle
      && rec[i].output == OutputAt(BatchStep(cfg.step), cfg.init, Inputs(rec), i)
  {
    RunGood(cfg, acts);
    var p := Run(cfg, acts);
    EntriesReplay(cfg, CyclesOf(p.line.turns), p.state, p.outs, p.outbound, p.connected, p.stage, p.log, firstId, i);
  }

  lemma EntriesReplay<S, T, Out>(cfg: Config<S, T, Out>, cs: seq<Cycle<T>>, state: S, outs: seq<seq<Out>>,
                                 outbound: seq<Out>, connected: bool, stage: Stage<T, Out>,
                                 log: seq<Entry<T, Out>>, firstId: u64, i: nat)
    requires RecordsOk(cfg, cs, state, outs, outbound, connected, stage, log)
    requires i < |log| && Numbered(firstId, |log|)
    ensures i < |cs| && RecordingOf(firstId, log)[i].input == cs[i]
    ensures RecordingOf(firstId, log)[i].output ==
      OutputAt(BatchStep(cfg.step), cfg.init, Inputs(RecordingOf(firstId, log)), i)
  {
    var ins := Inputs(RecordingOf(firstId, log));
    forall j | 0 <= j <= i ensures log[j].cycle == cs[j] {
      LogFollowsCycles(cfg, cs, state, outs, outbound, connected, stage, log, j);
    }
    assert ins[..i] == cs[..i];
    LogFollowsCycles(cfg, cs, state, outs, outbound, connected, stage, log, i);
    BatchStepOutput(cfg.step, cfg.init, ins, i);
  }

  /**
   Every live run replays: whatever the interleaving, even when the run ended in a fault, the log of its
   finished iterations passes the gate, with any encoding of the outputs and with or without overflow
   checks.
   */
  lemma EveryRunReplays<S, T, Out, E>(cfg: Config<S, T, Out>, acts: seq<Action<T>>, firstId: u64,
                                      encode: Option<Batch<Out>> -> Option<E>, overflowChecks: bool,
                                      report: GateReport<Cycle<T>, Option<Batch<Out>>>)
    requires 0 < |Run(cfg, acts).log| && Numbered(firstId, |Run(cfg, acts).log|)
    requires IsReport(LiveGate(cfg, encode), RecordingOf(firstId, Run(cfg, acts).log), report)
    ensures !Overflows(RecordingOf(firstId, Run(cfg, acts).log), overflowChecks)
    ensures report.Passed()
  {
    var rec := RecordingOf(firstId, Run(cfg, acts).log);
    var g := LiveGate(cfg, encode);
    NoOverflow(firstId, Run(cfg, acts).log, overflowChecks);
    PassedExactly(g, rec, report);
    forall i | 0 <= i < |rec| ensures !DivergesAt(g, rec, i) {
      LogIsReplayed(cfg, acts, firstId, i);
    }
  }

  /** The values in the batches of a log, in order. */
  function LoggedBatches<T, Out>(log: seq<Entry<T, Out>>): (vs: seq<seq<Out>>)
    ensures |vs| == |log|
    ensures forall i | 0 <= i < |log| :: vs[i] == ValuesOf(log[i].output)
  {
    seq(|log|, i requires 0 <= i < |log| => ValuesOf(log[i].output))
  }

  /**
   The log holds what was sent: between iterations exactly what the transport accepted; within an
   iteration, or after a fault, all but that iteration's own alarms, and no more.
   */
  lemma LogHoldsWhatWasSent<S, T, Out>(cfg: Config<S, T, Out>, acts: seq<Action<T>>)
    ensures var p := Run(cfg, acts);
      && (p.stage.Ingesting? ==> Flatten(LoggedBatches(p.log)) == p.outbound)
      && (!p.stage.Ingesting? ==>
            && |p.outs| == |p.log| + 1
            && p.outbound + Unsent(p.stage) == Flatten(LoggedBatches(p.log)) + p.outs[|p.log|])
  {
    RunGood(cfg, acts);
    var p := Run(cfg, acts);
    LogAgainstOuts(CyclesOf(p.line.turns), p.outs, p.stage, p.log);
    assert p.stage.Ingesting? ==> p.outbound + [] == p.outbound;
  }

  lemma LogAgainstOuts<T, Out>(cs: seq<Cycle<T>>, outs: seq<seq<Out>>, stage: Stage<T, Out>, log: seq<Entry<T, Out>>)
    requires LogOk(cs, outs, stage, log)
    ensures stage.Ingesting? ==> Flatten(outs) == Flatten(LoggedBatches(log))
    ensures !stage.Ingesting? ==> Flatten(outs) == Flatten(LoggedBatches(log)) + outs[|log|]
  {
    if stage.Ingesting? {
      assert LoggedBatches(log) == outs;
    } else {
      assert outs == LoggedBatches(log) + [outs[|log|]];
      FlattenSnoc(LoggedBatches(log), outs[|log|]);
    }
  }

  /** The first iterations of a run replay by themselves. */
  lemma PrefixReplays<S, T, Out, E>(cfg: Config<S, T, Out>, acts: seq<Action<T>>, firstId: u64, n: nat,
                                    encode: Option<Batch<Out>> -> Option<E>,
                                    report: GateReport<Cycle<T>, Option<Batch<Out>>>)
    requires 0 < n <= |Run(cfg, acts).log| && Numbered(firstId, |Run(cfg, acts).log|)
    requires IsReport(LiveGate(cfg, encode), RecordingOf(firstId, Run(cfg, acts).log)[..n], report)
    ensures report.Passed()
  {
    var rec := RecordingOf(firstId, Run(cfg, acts).log);
    var g := LiveGate(cfg, encode);
    PassedExactly(g, rec[..n], report);
    forall i | 0 <= i < n ensures !DivergesAt(g, rec[..n], i) {
      LogIsReplayed(cfg, acts, firstId, i);
      assert Inputs(rec[..n])[..i] == Inputs(rec)[..i];
    }
  }

  /**
   A log cut anywhere, as a crash may leave it: what can still be read is a clean stream, and passes the
   gate unless it is empty.
   */
  lemma CutLogReplays<S, T(!new), Out(!new), E>(cfg: Config<S, T, Out>, acts: seq<Action<T>>, firstId: u64,
                                                c: Codec<Copperlist<T, Out>>, cut: nat,
                                                encode: Option<Batch<Out>> -> Option<E>,
                                                report: GateReport<Cycle<T>, Option<Batch<Out>>>)
    requires Lawful(c) && Numbered(firstId, |Run(cfg, acts).log|)
    requires cut <= |WriteAll(c, RecordingOf(firstId, Run(cfg, acts).log))|
    requires var read := ReadAll(c.decode, WriteAll(c, RecordingOf(firstId, Run(cfg, acts).log))[..cut]);
      |read.0| > 0 && IsReport(LiveGate(cfg, encode), read.0, report)
    ensures ReadAll(c.decode, WriteAll(c, RecordingOf(firstId, Run(cfg, acts).log))[..cut]).1 == Eof
    ensures report.Passed()
  {
    var rec := RecordingOf(firstId, Run(cfg, acts).log);
    ReadTruncated(c, rec, cut);
    PrefixReplays(cfg, acts, firstId, CompleteWithin(c, rec, cut), encode, report);
  }
}
