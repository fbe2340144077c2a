/** What every run delivers: conservation and order, the meaning of a cycle, bounded waiting. */
module Delivery {

  import opened Basics
  import opened Channels
  import opened Machines
  import opened Intake
  import opened Pipeline

  function EventsOf<T>(turns: seq<Turn<T>>): (es: seq<seq<T>>)
    ensures |es| == |turns|
    ensures forall k | 0 <= k < |turns| :: es[k] == turns[k].cycle.events
  {
    seq(|turns|, k requires 0 <= k < |turns| => turns[k].cycle.events)
  }

  lemma MsgsAppend<T>(a: seq<Sent<T>>, b: seq<Sent<T>>)
    ensures Msgs(a + b) == Msgs(a) + Msgs(b)
  {
  }

  lemma MsgsTo<T>(sent: seq<Sent<T>>, a: nat, b: nat)
    requires a <= b <= |sent|
    ensures Msgs(sent[..b]) == Msgs(sent[..a]) + Msgs(sent[a..b])
  {
    assert sent[..b] == sent[..a] + sent[a..b];
    MsgsAppend(sent[..a], sent[a..b]);
  }

  lemma EventsSnoc<T>(turns: seq<Turn<T>>, t: Turn<T>)
    ensures Flatten(EventsOf(turns + [t])) == Flatten(EventsOf(turns)) + t.cycle.events
  {
    assert EventsOf(turns + [t]) == EventsOf(turns) + [t.cycle.events];
    FlattenSnoc(EventsOf(turns), t.cycle.events);
  }

  /** The cycles of a run carry exactly the first messages sent. */
  lemma {:induction false} EventsAreSent<T>(sent: seq<Sent<T>>, clock: u64, maxBatch: nat, turns: seq<Turn<T>>)
    requires TurnsOk(sent, clock, maxBatch, turns) && ChainOk(turns)
    ensures Taken(turns) <= |sent|
    ensures Flatten(EventsOf(turns)) == Msgs(sent[..Taken(turns)])
    decreases |turns|
  {
    if |turns| > 0 {
      var front, t := turns[..|turns| - 1], turns[|turns| - 1];
      assert turns == front + [t];
      assert TurnOk(sent, clock, maxBatch, t);
      EventsAreSent(sent, clock, maxBatch, front);
      assert t.first == Taken(front);
      EventsSnoc(front, t);
      MsgsTo(sent, t.first, t.Next());
    }
  }

  lemma ThreeParts<T>(sent: seq<Sent<T>>, taken: nat, hand: seq<Sent<T>>, queue: seq<Sent<T>>)
    requires taken + |hand| + |queue| == |sent|
    requires hand == sent[taken..taken + |hand|] && queue == sent[taken + |hand|..]
    ensures Msgs(sent) == Msgs(sent[..taken]) + Msgs(hand) + Msgs(queue)
  {
    assert sent == sent[..taken] + hand + queue;
    MsgsAppend(sent[..taken] + hand, queue);
    MsgsAppend(sent[..taken], hand);
  }

  /** The batch in hand is a stretch of the messages sent, right after what the turns took. */
  lemma HandIsNext<T>(sent: seq<Sent<T>>, clock: u64, maxBatch: nat, turns: seq<Turn<T>>, ph: Phase<T>)
    requires PhaseOk(sent, clock, maxBatch, ph) && PhaseStarts(turns, ph) && Taken(turns) <= |sent|
    ensures Taken(turns) + |InHand(ph)| <= |sent|
    ensures InHand(ph) == sent[Taken(turns)..Taken(turns) + |InHand(ph)|]
  {
  }

  lemma LineConservation<T>(lim: Limits, x: Line<T>)
    requires Inv(lim, x)
    ensures Msgs(x.sent) == Flatten(EventsOf(x.turns)) + Msgs(InHand(x.phase)) + Msgs(x.queue)
  {
    EventsAreSent(x.sent, x.clock, lim.maxBatch, x.turns);
    HandIsNext(x.sent, x.clock, lim.maxBatch, x.turns, x.phase);
    ThreeParts(x.sent, Taken(x.turns), InHand(x.phase), x.queue);
  }

  /**
   Conservation and order, at every intermediate step of every run: the messages sent are those of
   the completed cycles, then those of the cycle in progress, then those still queued.
   */
  lemma Conservation<S, T, Out>(cfg: Config<S, T, Out>, acts: seq<Action<T>>)
    ensures var x := Run(cfg, acts).line;
      && Msgs(x.sent) == Flatten(EventsOf(x.turns)) + Msgs(InHand(x.phase)) + Msgs(x.queue)
      && (cfg.limits.capacity.Some? ==> |x.queue| <= cfg.limits.capacity.value)
  {
    RunInv(cfg, acts);
    LineConservation(cfg.limits, Run(cfg, acts).line);
  }

  /** What a cycle tells about the messages sent. */
  ghost predicate Tells<T>(sent: seq<Sent<T>>, maxBatch: nat, t: Turn<T>) {
    var c := t.cycle;
    && |c.events| <= maxBatch
    && t.first + |c.events| + c.pending == t.counted.sent <= |sent|
    && t.began.at <= t.counted.at <= c.nowNs
    && (forall j | 0 <= j < |c.events| ::
          c.events[j] == sent[t.first + j].msg && sent[t.first + j].at <= c.nowNs)
    && (forall j | 0 <= j < t.counted.sent :: sent[j].at <= t.counted.at)
    && (|c.events| < maxBatch ==>
          && t.empty.Some? && t.empty.value.sent == t.first + |c.events|
          && t.began.at <= t.empty.value.at <= t.counted.at
          && (forall j | t.first + |c.events| <= j < t.counted.sent :: t.empty.value.at <= sent[j].at))
  }

  lemma TurnTells<T>(sent: seq<Sent<T>>, clock: u64, maxBatch: nat, t: Turn<T>)
    requires TurnOk(sent, clock, maxBatch, t)
    ensures Tells(sent, maxBatch, t)
  {
    forall j | 0 <= j < |t.batch|
      ensures t.cycle.events[j] == sent[t.first + j].msg && sent[t.first + j].at <= t.cycle.nowNs
    {
      assert t.batch[j] == sent[t.first + j];
    }
  }

  /**
   The meaning of a cycle. Its events are consecutive messages, in order, none enqueued after the
   stamp. `pending` is the number sent but not drained when it was measured. And when the batch is
   not full, the drain saw the queue empty, having taken everything sent until then, so that all
   of `pending` was enqueued after that moment.
   */
  lemma CycleMeaning<S, T, Out>(cfg: Config<S, T, Out>, acts: seq<Action<T>>, k: nat)
    requires k < |Run(cfg, acts).line.turns|
    ensures Tells(Run(cfg, acts).line.sent, cfg.limits.maxBatch, Run(cfg, acts).line.turns[k])
  {
    RunInv(cfg, acts);
    var x := Run(cfg, acts).line;
    TurnTells(x.sent, x.clock, cfg.limits.maxBatch, x.turns[k]);
  }

  /**
   A backlog means a full batch exactly when nothing was sent between seeing the queue empty and
   measuring it.
   */
  lemma BacklogMeansFullBatch<S, T, Out>(cfg: Config<S, T, Out>, acts: seq<Action<T>>, k: nat)
    requires k < |Run(cfg, acts).line.turns|
    ensures var t := Run(cfg, acts).line.turns[k];
      (t.cycle.pending > 0 ==> |t.cycle.events| == cfg.limits.maxBatch) <==>
      (t.empty.Some? ==> t.counted.sent == t.empty.value.sent)
  {
    CycleMeaning(cfg, acts, k);
    RunInv(cfg, acts);
    var x := Run(cfg, acts).line;
    assert TurnOk(x.sent, x.clock, cfg.limits.maxBatch, x.turns[k]);
  }

  /** One action more. */
  lemma RunNext<S, T, Out>(cfg: Config<S, T, Out>, acts: seq<Action<T>>, a: Action<T>) returns (more: seq<Action<T>>)
    ensures more == acts + [a] && Run(cfg, more) == Apply(cfg, Run(cfg, acts), a)
  {
    more := acts + [a];
    ExecSnoc(cfg, Init(cfg), acts, a);
  }

  /** A first drain that has found the queue empty. */
  lemma DrainsNothing<S, T, Out>(cfg: Config<S, T, Out>) returns (acts: seq<Action<T>>)
    requires cfg.limits.Valid()
    ensures Run(cfg, acts) ==
      Init(cfg).(line := Empty<T>().(phase := Drained(0, [], Mark(0, 0), Some(Mark(0, 0)))))
  {
    acts := RunNext(cfg, [], Iterate);
    acts := RunNext(cfg, acts, Iterate);
  }

  /**
   A backlog does not by itself mean that input outpaces the loop: a message sent just after a drain has
   found the queue empty is counted in `pending` of a cycle that had nothing to drain.
   */
  lemma BacklogOfAnEmptyCycle<S, T, Out>(cfg: Config<S, T, Out>, msg: T) returns (acts: seq<Action<T>>)
    requires cfg.limits.Valid()
    ensures var x := Run(cfg, acts).line;
      |x.turns| == 1 && x.turns[0].cycle.events == [] && x.turns[0].cycle.pending == 1
  {
    acts := DrainsNothing(cfg);
    acts := RunNext(cfg, acts, Send(msg));
    acts := RunNext(cfg, acts, Iterate);
    acts := RunNext(cfg, acts, Iterate);
    acts := RunNext(cfg, acts, Iterate);
  }

  /** Cycles follow each other in time: the stamps of a live run never decrease. */
  lemma {:induction false} StampsIncrease<T>(sent: seq<Sent<T>>, clock: u64, maxBatch: nat,
                                             turns: seq<Turn<T>>, i: nat, j: nat)
    requires TurnsOk(sent, clock, maxBatch, turns) && ChainOk(turns) && i <= j < |turns|
    ensures turns[i].cycle.nowNs <= turns[j].cycle.nowNs
    decreases j
  {
    if i < j {
      StampsIncrease(sent, clock, maxBatch, turns, i, j - 1);
      assert TurnOk(sent, clock, maxBatch, turns[j]);
      assert Follows(turns[j - 1], turns[j].first, turns[j].began);
    }
  }

  /**
   What the transport has accepted is, at every moment and even after it has hung up in the middle of
   a batch, a prefix of what a cold machine emits for the cycles so far; while no send has failed it
   lags by what the current iteration has left to send, and between iterations by nothing. Only a
   transport that has hung up stops the pipeline.
   */
  lemma EgressPrefix<S, T, Out>(cfg: Config<S, T, Out>, acts: seq<Action<T>>)
    ensures var p := Run(cfg, acts); var emitted := Flatten(Answers(cfg.step, cfg.init, CyclesOf(p.line.turns)));
      && p.outbound <= emitted
      && (p.stage.Ingesting? ==> p.outbound == emitted)
      && (p.stage.Sending? ==> p.outbound + p.stage.rest == emitted)
      && (p.stage.Faulted? ==> p.outbound + p.stage.unsent == emitted && |p.stage.unsent| > 0 && HangUp in acts)
  {
    RunGood(cfg, acts);
    Disconnects(cfg, acts);
    var p := Run(cfg, acts);
    assert p.outbound <= p.outbound + Unsent(p.stage);
    assert p.stage.Ingesting? ==> p.outbound == p.outbound + [];
  }

  lemma {:induction false} Disconnects<S, T, Out>(cfg: Config<S, T, Out>, acts: seq<Action<T>>)
    ensures Run(cfg, acts).connected <==> HangUp !in acts
    decreases |acts|
  {
    if |acts| > 0 {
      Disconnects(cfg, acts[..|acts| - 1]);
      assert acts == acts[..|acts| - 1] + [acts[|acts| - 1]];
    }
  }

  // ---------------------------------------------------------------------------
  // What happens after a moment between cycles
  // ---------------------------------------------------------------------------

  function BeganAt<T>(ph: Phase<T>): Option<Mark> {
    match ph
    case Between => None
    case Draining(_, _, began) => Some(began)
    case Drained(_, _, began, _) => Some(began)
    case Measured(_, _, began, _, _, _) => Some(began)
    case Stamped(turn) => Some(turn.began)
  }

  /** `y` is later than `x`, and every cycle that is new in `y` began after `x`. */
  ghost predicate Later<T>(x: Line<T>, y: Line<T>) {
    && x.sent <= y.sent && x.clock <= y.clock && x.turns <= y.turns
    && (forall k | |x.turns| <= k < |y.turns| :: Precedes(Now(x), y.turns[k].began))
    && (BeganAt(y.phase).Some? ==> Precedes(Now(x), BeganAt(y.phase).value))
  }

  lemma LaterStep<S, T, Out>(cfg: Config<S, T, Out>, x: Line<T>, p: Pipe<S, T, Out>, a: Action<T>)
    requires Later(x, p.line)
    ensures Later(x, Apply(cfg, p, a).line)
  {
  }

  lemma {:induction false} LaterExec<S, T, Out>(cfg: Config<S, T, Out>, p: Pipe<S, T, Out>, acts: seq<Action<T>>)
    requires p.line.phase.Between?
    ensures Later(p.line, Exec(cfg, p, acts).line)
    decreases |acts|
  {
    if |acts| > 0 {
      LaterExec(cfg, p, acts[..|acts| - 1]);
      LaterStep(cfg, p.line, Exec(cfg, p, acts[..|acts| - 1]), acts[|acts| - 1]);
    }
  }

  /** The position reached before turn `k`. */
  function Position<T>(turns: seq<Turn<T>>, k: nat): nat
    requires k <= |turns|
  {
    if k == 0 then 0 else turns[k - 1].Next()
  }

  /** Cycle `k` drains a full batch, or everything sent before it began. */
  lemma TurnProgress<T>(sent: seq<Sent<T>>, clock: u64, maxBatch: nat, turns: seq<Turn<T>>, k: nat)
    requires TurnsOk(sent, clock, maxBatch, turns) && ChainOk(turns) && k < |turns|
    ensures Position(turns, k) == turns[k].first
    ensures Position(turns, k + 1) == Position(turns, k) + maxBatch
      || Position(turns, k + 1) >= turns[k].began.sent
    ensures Position(turns, k + 1) <= |sent|
  {
    assert TurnOk(sent, clock, maxBatch, turns[k]);
  }

  /** `j` cycles begun after `goal` messages were sent drain `j` full batches, or all of `goal`. */
  lemma {:induction false} DrainProgress<T>(sent: seq<Sent<T>>, clock: u64, maxBatch: nat, turns: seq<Turn<T>>,
                                            n: nat, goal: nat, j: nat)
    requires TurnsOk(sent, clock, maxBatch, turns) && ChainOk(turns) && n + j <= |turns|
    requires forall k | n <= k < |turns| :: goal <= turns[k].began.sent
    ensures Position(turns, n + j) >= Position(turns, n) + j * maxBatch || Position(turns, n + j) >= goal
    decreases j
  {
    if j > 0 {
      DrainProgress(sent, clock, maxBatch, turns, n, goal, j - 1);
      TurnProgress(sent, clock, maxBatch, turns, n + j - 1);
      assert j * maxBatch == (j - 1) * maxBatch + maxBatch;
    }
  }

  /** A position passed between two turns was passed in one of the turns between them. */
  lemma {:induction false} FindTurn<T>(turns: seq<Turn<T>>, n: nat, m: nat, i: nat) returns (k: nat)
    requires ChainOk(turns) && n < m <= |turns|
    requires Position(turns, n) <= i < Position(turns, m)
    ensures n <= k < m && turns[k].first <= i < turns[k].Next()
    decreases m - n
  {
    if i < turns[n].Next() {
      k := n;
    } else {
      k := FindTurn(turns, n + 1, m, i);
    }
  }

  /** How many batches it takes to hold `n` messages. */
  function Batches(n: nat, maxBatch: nat): nat
    requires maxBatch > 0
  {
    (n + maxBatch - 1) / maxBatch
  }

  lemma BatchesSuffice(n: nat, maxBatch: nat)
    requires maxBatch > 0
    ensures Batches(n, maxBatch) * maxBatch >= n
  {
    var q, r := (n + maxBatch - 1) / maxBatch, (n + maxBatch - 1) % maxBatch;
    assert n + maxBatch - 1 == q * maxBatch + r;
  }

  /** How many full batches it takes to get past `i` messages. */
  function Rounds(i: nat, maxBatch: nat): nat
    requires maxBatch > 0
  {
    i / maxBatch + 1
  }

  lemma RoundsSuffice(i: nat, maxBatch: nat)
    requires maxBatch > 0
    ensures Rounds(i, maxBatch) * maxBatch > i
  {
    var q, r := i / maxBatch, i % maxBatch;
    assert i == q * maxBatch + r;
  }

  /** Some cycle begun after `x` passes a position that `x` had sent. */
  lemma PassedBy<T>(lim: Limits, x: Line<T>, y: Line<T>, i: nat, rounds: nat) returns (k: nat)
    requires Taken(x.turns) + i < |x.sent|
    requires TurnsOk(y.sent, y.clock, lim.maxBatch, y.turns) && ChainOk(y.turns) && Later(x, y)
    requires rounds * lim.maxBatch > i && |y.turns| >= |x.turns| + rounds
    ensures |x.turns| <= k < |x.turns| + rounds
    ensures y.turns[k].first <= Taken(x.turns) + i < y.turns[k].Next()
  {
    var n := |x.turns|;
    assert Position(y.turns, n) == Taken(x.turns);
    DrainProgress(y.sent, y.clock, lim.maxBatch, y.turns, n, |x.sent|, rounds);
    k := FindTurn(y.turns, n, n + rounds, Taken(x.turns) + i);
  }

  /** A turn hands over the messages at the positions it passes. */
  lemma HandsOver<T>(sent: seq<Sent<T>>, clock: u64, maxBatch: nat, t: Turn<T>, at: nat)
    requires TurnOk(sent, clock, maxBatch, t) && t.first <= at < t.Next()
    ensures at < |sent| && at - t.first < |t.cycle.events| && t.cycle.events[at - t.first] == sent[at].msg
  {
    assert t.batch[at - t.first] == sent[at];
  }

  /** The wait, seen on two states of the line. */
  lemma LineWait<T>(lim: Limits, x: Line<T>, y: Line<T>, i: nat, rounds: nat) returns (k: nat, e: nat)
    requires QueueOk(lim, x.queue, x.sent, Taken(x.turns)) && i < |x.queue|
    requires TurnsOk(y.sent, y.clock, lim.maxBatch, y.turns) && ChainOk(y.turns) && Later(x, y)
    requires rounds * lim.maxBatch > i && |y.turns| >= |x.turns| + rounds
    ensures |x.turns| <= k < |x.turns| + rounds
    ensures e < |y.turns[k].cycle.events| && y.turns[k].first + e == Taken(x.turns) + i
    ensures y.turns[k].cycle.events[e] == x.queue[i].msg
  {
    k := PassedBy(lim, x, y, i, rounds);
    var at := Taken(x.turns) + i;
    e := at - y.turns[k].first;
    HandsOver(y.sent, y.clock, lim.maxBatch, y.turns[k], at);
    assert y.sent[at] == x.sent[at] == x.queue[i];
  }

  /** What two states of a run, the first between cycles, have to do with each other. */
  lemma RunLater<S, T, Out>(cfg: Config<S, T, Out>, acts: seq<Action<T>>, more: seq<Action<T>>)
    requires Run(cfg, acts).line.phase.Between?
    ensures Later(Run(cfg, acts).line, Run(cfg, acts + more).line)
  {
    ExecAppend(cfg, Init(cfg), acts, more);
    LaterExec(cfg, Run(cfg, acts), more);
  }

  /**
   Bounded wait: between cycles, the message with `i` messages ahead of it in the queue is handed
   over by one of the next `i / maxBatch + 1` cycles, whatever else is sent meanwhile.
   */
  lemma BoundedWait<S, T, Out>(cfg: Config<S, T, Out>, acts: seq<Action<T>>, more: seq<Action<T>>, i: nat)
      returns (k: nat, e: nat)
    requires cfg.limits.Valid()
    requires Run(cfg, acts).line.phase.Between? && i < |Run(cfg, acts).line.queue|
    requires |Run(cfg, acts + more).line.turns| >= |Run(cfg, acts).line.turns| + Rounds(i, cfg.limits.maxBatch)
    ensures var x, y := Run(cfg, acts).line, Run(cfg, acts + more).line;
      && |x.turns| <= k < |x.turns| + Rounds(i, cfg.limits.maxBatch) && k < |y.turns|
      && e < |y.turns[k].cycle.events| && y.turns[k].first + e == Taken(x.turns) + i
      && y.turns[k].cycle.events[e] == x.queue[i].msg
  {
    RunInv(cfg, acts);
    RunInv(cfg, acts + more);
    RunLater(cfg, acts, more);
    RoundsSuffice(i, cfg.limits.maxBatch);
    k, e := LineWait(cfg.limits, Run(cfg, acts).line, Run(cfg, acts + more).line, i, Rounds(i, cfg.limits.maxBatch));
  }

  /** With a bounded queue the wait is at most the capacity in batches, rounded up. */
  lemma BoundedWaitByCapacity<S, T, Out>(cfg: Config<S, T, Out>, acts: seq<Action<T>>, more: seq<Action<T>>, i: nat)
      returns (k: nat, e: nat)
    requires cfg.limits.Valid() && cfg.limits.capacity.Some?
    requires Run(cfg, acts).line.phase.Between? && i < |Run(cfg, acts).line.queue|
    requires |Run(cfg, acts + more).line.turns| >=
      |Run(cfg, acts).line.turns| + Batches(cfg.limits.capacity.value, cfg.limits.maxBatch)
    ensures var x, y := Run(cfg, acts).line, Run(cfg, acts + more).line;
      && |x.turns| <= k < |x.turns| + Batches(cfg.limits.capacity.value, cfg.limits.maxBatch)
      && k < |y.turns|
      && e < |y.turns[k].cycle.events| && y.turns[k].first + e == Taken(x.turns) + i
      && y.turns[k].cycle.events[e] == x.queue[i].msg
  {
    RunInv(cfg, acts);
    RunInv(cfg, acts + more);
    RunLater(cfg, acts, more);
    var cap, max := cfg.limits.capacity.value, cfg.limits.maxBatch;
    BatchesSuffice(cap, max);
    k, e := LineWait(cfg.limits, Run(cfg, acts).line, Run(cfg, acts + more).line, i, Batches(cap, max));
  }
}
