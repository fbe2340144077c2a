/**
 The whole pipeline: the inbound line, a machine that is stepped once per cycle, an egress that
 sends the step's outputs one by one, and the log of each finished iteration. The driver, the
 clock and a transport that hangs up interleave with every atomic step. A run is any sequence of
 actions; an action that is not enabled (a send into a full queue, a clock that would go
 backwards) does nothing.
 */
module Pipeline {

  import opened Basics
  import opened Channels
  import opened Messages
  import opened Machines
  import opened Intake

  /** What the copperlist of an iteration records: the cycle and the optional batch. */
  datatype Entry<+T, +Out> = Entry(cycle: Cycle<T>, output: Option<Batch<Out>>)

  /** Where the iterating thread is. A thread whose transport has gone stops for good. */
  datatype Stage<+T, +Out> = Ingesting | Sending(entry: Entry<T, Out>, rest: seq<Out>) | Faulted(unsent: seq<Out>)

  datatype Pipe<S, T, Out> = Pipe(
    line: Line<T>,
    connected: bool,
    stage: Stage<T, Out>,
    state: S,
    outs: seq<seq<Out>>,
    outbound: seq<Out>,
    log: seq<Entry<T, Out>>)

  datatype Config<!S, !T, !Out> =
    Config(limits: Limits, init: S, step: StepOf<S, Cycle<T>, seq<Out>>)

  function Init<S, T, Out>(cfg: Config<S, T, Out>): Pipe<S, T, Out> {
    Pipe(Empty(), true, Ingesting, cfg.init, [], [], [])
  }

  /** Nothing is in progress: the last iteration has been logged, the next has not begun. */
  predicate Idle<S, T, Out>(p: Pipe<S, T, Out>) {
    p.stage.Ingesting? && p.line.phase.Between?
  }

  /** The machine consumes the stamped cycle; its outputs become the iteration's batch. */
  function StepMachine<S, T, Out>(cfg: Config<S, T, Out>, p: Pipe<S, T, Out>): Pipe<S, T, Out>
    requires p.line.phase.Stamped?
  {
    var cycle := p.line.phase.turn.cycle;
    var (s, out) := cfg.step(p.state, cycle);
    p.(state := s, line := HandOver(p.line), outs := p.outs + [out], stage := Sending(Entry(cycle, BatchOf(out)), out))
  }

  /** One output goes out, or the iteration is logged when none is left. */
  function SendOne<S, T, Out>(p: Pipe<S, T, Out>): Pipe<S, T, Out>
    requires p.stage.Sending?
  {
    var Sending(entry, rest) := p.stage;
    if |rest| == 0 then
      p.(log := p.log + [entry], stage := Ingesting)
    else if p.connected then
      p.(outbound := p.outbound + [rest[0]], stage := Sending(entry, rest[1..]))
    else
      p.(stage := Faulted(rest))
  }

  function Apply<S, T, Out>(cfg: Config<S, T, Out>, p: Pipe<S, T, Out>, a: Action<T>): Pipe<S, T, Out> {
    match a
    case Send(msg) => p.(line := Enqueue(cfg.limits, p.line, msg))
    case Clock(now) => p.(line := Elapse(p.line, now))
    case HangUp => p.(connected := false)
    case Iterate =>
      match p.stage
      case Ingesting =>
        if p.line.phase.Stamped? then StepMachine(cfg, p)
        else p.(line := Pull(cfg.limits, p.line))
      case Sending(_, _) => SendOne(p)
      case Faulted(_) => p
  }

  /** The state reached by a sequence of actions. */
  function Exec<S, T, Out>(cfg: Config<S, T, Out>, p: Pipe<S, T, Out>, acts: seq<Action<T>>): Pipe<S, T, Out>
    decreases |acts|
  {
    if |acts| == 0 then p
    else Apply(cfg, Exec(cfg, p, acts[..|acts| - 1]), acts[|acts| - 1])
  }

  /** Any run at all, from the beginning. */
  function Run<S, T, Out>(cfg: Config<S, T, Out>, acts: seq<Action<T>>): Pipe<S, T, Out> {
    Exec(cfg, Init(cfg), acts)
  }

  lemma ExecSnoc<S, T, Out>(cfg: Config<S, T, Out>, p: Pipe<S, T, Out>, acts: seq<Action<T>>, a: Action<T>)
    ensures Exec(cfg, p, acts + [a]) == Apply(cfg, Exec(cfg, p, acts), a)
  {
    assert (acts + [a])[..|acts|] == acts;
  }

  lemma {:induction false} ExecAppend<S, T, Out>(cfg: Config<S, T, Out>, p: Pipe<S, T, Out>,
                                                 acts: seq<Action<T>>, more: seq<Action<T>>)
    ensures Exec(cfg, p, acts + more) == Exec(cfg, Exec(cfg, p, acts), more)
    decreases |more|
  {
    if |more| == 0 {
      assert acts + more == acts;
    } else {
      var front, last := more[..|more| - 1], more[|more| - 1];
      ExecAppend(cfg, p, acts, front);
      assert acts + more == (acts + front) + [last];
      ExecSnoc(cfg, p, acts + front, last);
    }
  }

  // ---------------------------------------------------------------------------
  // Invariants
  // ---------------------------------------------------------------------------

  /** The machine's state and answers are those of a cold machine fed the cycles so far. */
  ghost predicate MachineOk<S, T, Out>(cfg: Config<S, T, Out>, cs: seq<Cycle<T>>, state: S, outs: seq<seq<Out>>) {
    state == StateAfter(cfg.step, cfg.init, cs) && outs == Answers(cfg.step, cfg.init, cs)
  }

  /** Outputs the machine has emitted but the transport has not accepted. */
  function Unsent<T, Out>(stage: Stage<T, Out>): seq<Out> {
    match stage
    case Ingesting => []
    case Sending(_, rest) => rest
    case Faulted(unsent) => unsent
  }

  /** What was accepted, followed by what was not, is what the machine emitted. */
  ghost predicate EgressOk<T, Out>(outs: seq<seq<Out>>, outbound: seq<Out>, stage: Stage<T, Out>, connected: bool) {
    && outbound + Unsent(stage) == Flatten(outs)
    && (stage.Faulted? ==> !connected && |stage.unsent| > 0)
  }

  /** The log holds every finished iteration; one that is still sending is not in it yet. */
  ghost predicate LogOk<T, Out>(cs: seq<Cycle<T>>, outs: seq<seq<Out>>, stage: Stage<T, Out>, log: seq<Entry<T, Out>>) {
    && |cs| == |outs| == |log| + (if stage.Ingesting? then 0 else 1)
    && (forall k | 0 <= k < |log| :: log[k] == Entry(cs[k], BatchOf(outs[k])))
    && (stage.Sending? ==> stage.entry == Entry(cs[|log|], BatchOf(outs[|log|])))
  }

  /** The machine, the egress and the log all tell the same story about the cycles so far. */
  ghost predicate RecordsOk<S, T, Out>(cfg: Config<S, T, Out>, cs: seq<Cycle<T>>, state: S, outs: seq<seq<Out>>,
                                       outbound: seq<Out>, connected: bool, stage: Stage<T, Out>,
                                       log: seq<Entry<T, Out>>)
  {
    && MachineOk(cfg, cs, state, outs)
    && EgressOk(outs, outbound, stage, connected)
    && LogOk(cs, outs, stage, log)
  }

  ghost predicate Good<S, T, Out>(cfg: Config<S, T, Out>, p: Pipe<S, T, Out>) {
    && Inv(cfg.limits, p.line)
    && (p.stage.Ingesting? || p.line.phase.Between?)
    && RecordsOk(cfg, CyclesOf(p.line.turns), p.state, p.outs, p.outbound, p.connected, p.stage, p.log)
  }

  lemma InitGood<S, T, Out>(cfg: Config<S, T, Out>)
    ensures Good(cfg, Init(cfg))
  {
    EmptyInv<T>(cfg.limits);
  }

  lemma MachineSnoc<S, T, Out>(cfg: Config<S, T, Out>, cs: seq<Cycle<T>>, state: S, outs: seq<seq<Out>>, c: Cycle<T>)
    requires MachineOk(cfg, cs, state, outs)
    ensures MachineOk(cfg, cs + [c], cfg.step(state, c).0, outs + [cfg.step(state, c).1])
  {
    StateAfterSnoc(cfg.step, cfg.init, cs, c);
    AnswersSnoc(cfg.step, cfg.init, cs, c);
  }

  lemma LineGood<S, T, Out>(cfg: Config<S, T, Out>, p: Pipe<S, T, Out>, line: Line<T>)
    requires Good(cfg, p) && Inv(cfg.limits, line) && line.turns == p.line.turns
    requires p.stage.Ingesting? || line.phase == p.line.phase
    ensures Good(cfg, p.(line := line))
  {
  }

  lemma RecordsGrow<S, T, Out>(cfg: Config<S, T, Out>, cs: seq<Cycle<T>>, state: S, outs: seq<seq<Out>>,
                               outbound: seq<Out>, connected: bool, log: seq<Entry<T, Out>>, c: Cycle<T>)
    requires RecordsOk(cfg, cs, state, outs, outbound, connected, Stage<T, Out>.Ingesting, log)
    ensures var (next, out) := cfg.step(state, c);
      RecordsOk(cfg, cs + [c], next, outs + [out], outbound, connected, Sending(Entry(c, BatchOf(out)), out), log)
  {
    MachineSnoc(cfg, cs, state, outs, c);
    FlattenSnoc(outs, cfg.step(state, c).1);
    assert outbound == outbound + [];
  }

  lemma StepRecords<S, T, Out>(cfg: Config<S, T, Out>, p: Pipe<S, T, Out>, turns: seq<Turn<T>>, t: Turn<T>)
    requires turns == p.line.turns && p.line.phase == Stamped(t) && p.stage.Ingesting?
    requires RecordsOk(cfg, CyclesOf(turns), p.state, p.outs, p.outbound, p.connected, p.stage, p.log)
    ensures var q := StepMachine(cfg, p);
      RecordsOk(cfg, CyclesOf(turns + [t]), q.state, q.outs, q.outbound, q.connected, q.stage, q.log)
  {
    assert CyclesOf(turns + [t]) == CyclesOf(turns) + [t.cycle];
    RecordsGrow(cfg, CyclesOf(turns), p.state, p.outs, p.outbound, p.connected, p.log, t.cycle);
  }

  lemma StepMachineGood<S, T, Out>(cfg: Config<S, T, Out>, p: Pipe<S, T, Out>)
    requires Good(cfg, p) && p.stage.Ingesting? && p.line.phase.Stamped?
    ensures Good(cfg, StepMachine(cfg, p))
  {
    StepRecords(cfg, p, p.line.turns, p.line.phase.turn);
    HandOverInv(cfg.limits, p.line);
  }

  /** One output moves from what is unsent to what has been accepted. */
  lemma SendEgress<T, Out>(outs: seq<seq<Out>>, outbound: seq<Out>, entry: Entry<T, Out>, rest: seq<Out>)
    requires EgressOk(outs, outbound, Sending(entry, rest), true) && |rest| > 0
    ensures EgressOk(outs, outbound + [rest[0]], Sending(entry, rest[1..]), true)
  {
    assert rest == [rest[0]] + rest[1..];
    assert outbound + rest == (outbound + [rest[0]]) + rest[1..];
  }

  /** A finished iteration joins the log. */
  lemma LogEntry<T, Out>(cs: seq<Cycle<T>>, outs: seq<seq<Out>>, entry: Entry<T, Out>, log: seq<Entry<T, Out>>)
    requires LogOk(cs, outs, Sending(entry, []), log)
    ensures LogOk(cs, outs, Stage<T, Out>.Ingesting, log + [entry])
  {
  }

  lemma SendRecords<S, T, Out>(cfg: Config<S, T, Out>, p: Pipe<S, T, Out>, cs: seq<Cycle<T>>)
    requires p.stage.Sending?
    requires RecordsOk(cfg, cs, p.state, p.outs, p.outbound, p.connected, p.stage, p.log)
    ensures var q := SendOne(p);
      RecordsOk(cfg, cs, q.state, q.outs, q.outbound, q.connected, q.stage, q.log)
  {
    var Sending(entry, rest) := p.stage;
    if |rest| == 0 {
      assert rest == [];
      LogEntry(cs, p.outs, entry, p.log);
    } else if p.connected {
      SendEgress(p.outs, p.outbound, entry, rest);
    }
  }

  lemma SendOneGood<S, T, Out>(cfg: Config<S, T, Out>, p: Pipe<S, T, Out>)
    requires Good(cfg, p) && p.stage.Sending?
    ensures Good(cfg, SendOne(p))
  {
    SendRecords(cfg, p, CyclesOf(p.line.turns));
  }

  lemma PullKeepsTurns<T>(lim: Limits, x: Line<T>)
    ensures Pull(lim, x).turns == x.turns
  {
  }

  lemma PullGood<S, T, Out>(cfg: Config<S, T, Out>, p: Pipe<S, T, Out>, line: Line<T>)
    requires Good(cfg, p) && p.stage.Ingesting? && line == Pull(cfg.limits, p.line)
    ensures Good(cfg, p.(line := line))
  {
    PullInv(cfg.limits, p.line);
    PullKeepsTurns(cfg.limits, p.line);
    LineGood(cfg, p, line);
  }

  lemma IterateGood<S, T, Out>(cfg: Config<S, T, Out>, p: Pipe<S, T, Out>)
    requires Good(cfg, p)
    ensures Good(cfg, Apply(cfg, p, Iterate))
  {
    match p.stage
    case Ingesting =>
      if p.line.phase.Stamped? { StepMachineGood(cfg, p); } else { PullGood(cfg, p, Pull(cfg.limits, p.line)); }
    case Sending(_, _) => SendOneGood(cfg, p);
    case Faulted(_) =>
  }

  lemma SendGood<S, T, Out>(cfg: Config<S, T, Out>, p: Pipe<S, T, Out>, msg: T)
    requires Good(cfg, p)
    ensures Good(cfg, Apply(cfg, p, Send(msg)))
  {
    EnqueueInv(cfg.limits, p.line, msg);
  }

  lemma ClockGood<S, T, Out>(cfg: Config<S, T, Out>, p: Pipe<S, T, Out>, now: u64)
    requires Good(cfg, p)
    ensures Good(cfg, Apply(cfg, p, Clock(now)))
  {
    ElapseInv(cfg.limits, p.line, now);
  }

  lemma HangUpGood<S, T, Out>(cfg: Config<S, T, Out>, p: Pipe<S, T, Out>)
    requires Good(cfg, p)
    ensures Good(cfg, Apply(cfg, p, HangUp))
  {
  }

  lemma ApplyGood<S, T, Out>(cfg: Config<S, T, Out>, p: Pipe<S, T, Out>, a: Action<T>)
    requires Good(cfg, p)
    ensures Good(cfg, Apply(cfg, p, a))
  {
    match a
    case Send(msg) => SendGood(cfg, p, msg);
    case Clock(now) => ClockGood(cfg, p, now);
    case HangUp => HangUpGood(cfg, p);
    case Iterate => IterateGood(cfg, p);
  }

  lemma {:induction false} ExecGood<S, T, Out>(cfg: Config<S, T, Out>, p: Pipe<S, T, Out>, acts: seq<Action<T>>)
    requires Good(cfg, p)
    ensures Good(cfg, Exec(cfg, p, acts))
    decreases |acts|
  {
    if |acts| > 0 {
      ExecGood(cfg, p, acts[..|acts| - 1]);
      ApplyGood(cfg, Exec(cfg, p, acts[..|acts| - 1]), acts[|acts| - 1]);
    }
  }

  /** Every reachable state keeps the invariant. */
  lemma RunGood<S, T, Out>(cfg: Config<S, T, Out>, acts: seq<Action<T>>)
    ensures Good(cfg, Run(cfg, acts))
  {
    InitGood(cfg);
    ExecGood(cfg, Init(cfg), acts);
  }

  lemma RunInv<S, T, Out>(cfg: Config<S, T, Out>, acts: seq<Action<T>>)
    ensures Inv(cfg.limits, Run(cfg, acts).line)
  {
    RunGood(cfg, acts);
  }
}
