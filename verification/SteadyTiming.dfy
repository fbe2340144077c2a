/**
 The exact bound for steady feeding. Feeds that keep coming at most `gap` apart allow a silence of at
 most `gap + delay`, as any feeds do. But while an empty cycle waits for its stamp nothing is drained,
 and the feeds of that time need room: a queue of capacity `c` holds the silence to `(c + 1) * gap`.
 And feeds no time apart stop the clock.
 */
module SteadyTiming {

  import opened Basics
  import opened Channels
  import opened Messages
  import opened Intake
  import opened Pipeline
  import opened Delivery
  import opened Watchdog
  import opened WatchdogHistory
  import opened Timing
  import opened TimingExact

  // ---------------------------------------------------------------------------
  // What a bounded queue does to the stamps
  // ---------------------------------------------------------------------------

  /** Messages that the queue had no room for when the turn was stamped came no earlier than the stamp. */
  ghost predicate Uncrowded<T>(capacity: nat, sent: seq<Sent<T>>, t: Turn<T>) {
    forall j | t.Next() + capacity <= j < |sent| :: t.cycle.nowNs <= sent[j].at
  }

  ghost predicate NoneCrowded<T>(capacity: nat, sent: seq<Sent<T>>, turns: seq<Turn<T>>, ph: Phase<T>) {
    && (forall k | 0 <= k < |turns| :: Uncrowded(capacity, sent, turns[k]))
    && (ph.Stamped? ==> Uncrowded(capacity, sent, ph.turn))
  }

  lemma EnqueueUncrowded<T>(lim: Limits, x: Line<T>, msg: T)
    requires Inv(lim, x) && lim.capacity.Some?
    requires NoneCrowded(lim.capacity.value, x.sent, x.turns, x.phase)
    ensures var y := Enqueue(lim, x, msg); NoneCrowded(lim.capacity.value, y.sent, y.turns, y.phase)
  {
    var y := Enqueue(lim, x, msg);
    forall k | 0 <= k < |x.turns| ensures Uncrowded(lim.capacity.value, y.sent, x.turns[k]) {
      assert TurnOk(x.sent, x.clock, lim.maxBatch, x.turns[k]);
    }
  }

  lemma PullUncrowded<T>(lim: Limits, x: Line<T>)
    requires Inv(lim, x) && lim.capacity.Some?
    requires NoneCrowded(lim.capacity.value, x.sent, x.turns, x.phase)
    ensures var y := Pull(lim, x); NoneCrowded(lim.capacity.value, y.sent, y.turns, y.phase)
  {
    if x.phase.Measured? {
      assert Taken(x.turns) == x.phase.first;
      assert |x.sent| <= x.phase.first + |x.phase.batch| + lim.capacity.value;
    }
  }

  lemma HandOverUncrowded<T>(capacity: nat, sent: seq<Sent<T>>, turns: seq<Turn<T>>, ph: Phase<T>)
    requires NoneCrowded(capacity, sent, turns, ph) && ph.Stamped?
    ensures NoneCrowded(capacity, sent, turns + [ph.turn], Between)
  {
  }

  lemma IterateUncrowded<S, T, Out>(cfg: Config<S, T, Out>, p: Pipe<S, T, Out>)
    requires Inv(cfg.limits, p.line) && cfg.limits.capacity.Some?
    requires NoneCrowded(cfg.limits.capacity.value, p.line.sent, p.line.turns, p.line.phase)
    ensures var y := Apply(cfg, p, Iterate).line; NoneCrowded(cfg.limits.capacity.value, y.sent, y.turns, y.phase)
  {
    if p.stage.Ingesting? && p.line.phase.Stamped? {
      HandOverUncrowded(cfg.limits.capacity.value, p.line.sent, p.line.turns, p.line.phase);
    } else if p.stage.Ingesting? {
      PullUncrowded(cfg.limits, p.line);
    }
  }

  lemma ApplyUncrowded<S, T, Out>(cfg: Config<S, T, Out>, p: Pipe<S, T, Out>, a: Action<T>)
    requires Inv(cfg.limits, p.line) && cfg.limits.capacity.Some?
    requires NoneCrowded(cfg.limits.capacity.value, p.line.sent, p.line.turns, p.line.phase)
    ensures var y := Apply(cfg, p, a).line; NoneCrowded(cfg.limits.capacity.value, y.sent, y.turns, y.phase)
  {
    match a
    case Send(msg) => EnqueueUncrowded(cfg.limits, p.line, msg);
    case Clock(_) =>
    case HangUp =>
    case Iterate => IterateUncrowded(cfg, p);
  }

  /** In every run with a bounded queue, what a turn left no room for came no earlier than its stamp. */
  lemma {:induction false} RunUncrowded<S, T, Out>(cfg: Config<S, T, Out>, acts: seq<Action<T>>)
    requires cfg.limits.capacity.Some?
    ensures var x := Run(cfg, acts).line; NoneCrowded(cfg.limits.capacity.value, x.sent, x.turns, x.phase)
    decreases |acts|
  {
    if |acts| > 0 {
      RunUncrowded(cfg, acts[..|acts| - 1]);
      RunInv(cfg, acts[..|acts| - 1]);
      ApplyUncrowded(cfg, Run(cfg, acts[..|acts| - 1]), acts[|acts| - 1]);
    }
  }

  // ---------------------------------------------------------------------------
  // No false trip
  // ---------------------------------------------------------------------------

  /** The longest silence that steady feeding allows. */
  function LongestSilence(limits: Limits, gap: nat, delay: nat): nat {
    if gap == 0 then 0
    else if limits.capacity.Some? && (limits.capacity.value + 1) * gap < gap + delay then
      (limits.capacity.value + 1) * gap
    else gap + delay
  }

  /** `m` feeds later it is at most `m` gaps later. */
  lemma {:induction false} SteadyAhead<T>(sent: seq<Sent<T>>, gap: nat, j: nat, m: nat)
    requires forall i | 0 < i < |sent| :: sent[i].at <= sent[i - 1].at + gap
    requires j + m < |sent|
    ensures sent[j + m].at <= sent[j].at + Paces(m, gap)
    decreases m
  {
    if m > 0 {
      SteadyAhead(sent, gap, j, m - 1);
      assert sent[j + m].at <= sent[j + m - 1].at + gap;
    }
  }

  /** The clock, from any feed on. */
  lemma ClockAhead<T>(x: Line<T>, gap: nat, j: nat)
    requires FedSteadily(x, gap) && j < |x.sent|
    ensures x.clock <= x.sent[j].at + Paces(|x.sent| - j, gap)
  {
    SteadyAhead(x.sent, gap, j, |x.sent| - 1 - j);
  }

  /** With a bounded queue, a stamp is at most so far from the last feed its turn knows of. */
  lemma StampAhead<T>(x: Line<T>, capacity: nat, gap: nat, t: Turn<T>)
    requires FedSteadily(x, gap) && Uncrowded(capacity, x.sent, t)
    requires 0 < t.Next() <= |x.sent| && t.cycle.nowNs <= x.clock
    ensures t.cycle.nowNs <= x.sent[t.Next() - 1].at + Paces(capacity + 1, gap)
  {
    var last := t.Next() - 1;
    if last + 1 + capacity < |x.sent| {
      SteadyAhead(x.sent, gap, last, capacity + 1);
    } else {
      ClockAhead(x, gap, last);
      PacesMonotone(|x.sent| - last, capacity + 1, gap);
    }
  }

  /** An empty cycle knows of no feed after those of the last fed one, which was stamped after them. */
  lemma QuietKnows<T>(maxBatch: nat, x: Line<T>, i: nat, k: nat)
    requires TurnsOk(x.sent, x.clock, maxBatch, x.turns) && ChainOk(x.turns)
    requires i < k < |x.turns| && !Quiet(x.turns[i])
    requires forall j | i < j <= k :: Quiet(x.turns[j])
    ensures x.turns[k].Next() == x.turns[i].Next() && 0 < x.turns[i].Next() <= |x.sent|
    ensures x.sent[x.turns[i].Next() - 1].at <= x.turns[i].cycle.nowNs
    ensures x.turns[k].cycle.nowNs <= x.clock
  {
    QuietTurns(x.turns, i, k);
    var t, u := x.turns[i], x.turns[k];
    assert TurnOk(x.sent, x.clock, maxBatch, t);
    assert TurnOk(x.sent, x.clock, maxBatch, u);
    assert x.sent[t.Next() - 1].at <= t.counted.at <= t.cycle.nowNs;
  }

  /** An empty cycle cannot be far from the last fed one. */
  lemma QuietIsSteady<T>(limits: Limits, x: Line<T>, gap: nat, i: nat, k: nat)
    requires TurnsOk(x.sent, x.clock, limits.maxBatch, x.turns) && ChainOk(x.turns) && FedSteadily(x, gap)
    requires limits.capacity.Some? ==> NoneCrowded(limits.capacity.value, x.sent, x.turns, x.phase)
    requires i < k < |x.turns| && !Quiet(x.turns[i])
    requires forall j | i < j <= k :: Quiet(x.turns[j])
    ensures limits.capacity.Some? ==>
      x.turns[k].cycle.nowNs <= x.turns[i].cycle.nowNs + Paces(limits.capacity.value + 1, gap)
    ensures gap == 0 ==> x.turns[k].cycle.nowNs <= x.turns[i].cycle.nowNs
  {
    QuietKnows(limits.maxBatch, x, i, k);
    if limits.capacity.Some? {
      StampAhead(x, limits.capacity.value, gap, x.turns[k]);
    }
    if gap == 0 {
      ClockAhead(x, gap, x.turns[i].Next() - 1);
      NoPaces(|x.sent| - (x.turns[i].Next() - 1));
    }
  }

  lemma {:induction false} NoPaces(n: nat)
    ensures Paces(n, 0) == 0
  {
    if n > 0 { NoPaces(n - 1); }
  }

  /** No cycle trips, whichever of the bounds is the least. */
  lemma NoSteadyTripAt(limits: Limits, timeoutNs: u64, x: FeedLine, gap: nat, delay: nat, k: nat, silentNs: u64)
    requires limits.Valid() && LongestSilence(limits, gap, delay) <= timeoutNs
    requires TurnsOk(x.sent, x.clock, limits.maxBatch, x.turns) && ChainOk(x.turns)
    requires limits.capacity.Some? ==> NoneCrowded(limits.capacity.value, x.sent, x.turns, x.phase)
    requires FedSteadily(x, gap) && StampedWithin(x, delay) && k < |x.turns|
    ensures AlarmsAt(timeoutNs, CyclesOf(x.turns), k) != [Alarm.Tripped(silentNs)]
  {
    var cs := CyclesOf(x.turns);
    if gap + delay <= timeoutNs {
      SteadyIsHeard(limits, x, gap);
      NoTripAt(limits, timeoutNs, x, gap, delay, k, silentNs);
    } else if AlarmsAt(timeoutNs, cs, k) == [Alarm.Tripped(silentNs)] {
      AlarmsRefineHistory(timeoutNs, cs, k);
      var i :| LastFed(cs[..k], i) && FirstOverdue(timeoutNs, cs, i, k);
      QuietBetween(limits, x, i, k);
      QuietIsSteady(limits, x, gap, i, k);
      if limits.capacity.Some? { PacesIsProduct(limits.capacity.value + 1, gap); }
    }
  }

  /** The feeds keep coming, and empty cycles are stamped in time. */
  ghost predicate Steady(limits: Limits, timeoutNs: u64, acts: seq<Action<Feed>>, gap: nat, delay: nat) {
    FedSteadily(Trace(limits, timeoutNs, acts).line, gap) && StampedWithin(Trace(limits, timeoutNs, acts).line, delay)
  }

  /** A steadily fed service never trips when the longest silence fits in the timeout. */
  lemma NoSteadyTrip(limits: Limits, timeoutNs: u64, acts: seq<Action<Feed>>, gap: nat, delay: nat)
    requires limits.Valid() && LongestSilence(limits, gap, delay) <= timeoutNs
    requires Steady(limits, timeoutNs, acts, gap, delay)
    ensures Untripped(limits, timeoutNs, acts)
  {
    TraceIsHistory(limits, timeoutNs, acts);
    if limits.capacity.Some? { RunUncrowded(WatchdogService(limits, timeoutNs), acts); }
    var x := Trace(limits, timeoutNs, acts).line;
    forall a | a in Flatten(Trace(limits, timeoutNs, acts).outs) ensures !a.Tripped? {
      if a.Tripped? {
        var k := TripOrigin(timeoutNs, CyclesOf(x.turns), a);
        NoSteadyTripAt(limits, timeoutNs, x, gap, delay, k, a.silentNs);
      }
    }
  }

  // ---------------------------------------------------------------------------
  // Exactness
  // ---------------------------------------------------------------------------

  /** There is room for a feed every `gap` until `target`. */
  ghost predicate RoomUntil(limits: Limits, x: FeedLine, gap: nat, target: u64) {
    limits.capacity.Some? ==>
      |x.queue| <= limits.capacity.value && target <= x.clock + Paces(limits.capacity.value - |x.queue|, gap)
  }

  /** A service whose drain is over, waiting to be measured and stamped, with feeding steady so far. */
  ghost predicate Waiting(limits: Limits, p: Pipe<Model, Feed, Alarm>, gap: nat, target: u64) {
    && p.stage.Ingesting? && p.line.phase.Drained?
    && p.line.clock <= target && |p.line.sent| > 0 && FedSteadily(p.line, gap)
    && RoomUntil(limits, p.line, gap, target)
  }

  /** One feed, and the clock moves on by a gap. */
  lemma FeedOnce(cfg: Service, p: Pipe<Model, Feed, Alarm>, gap: nat, target: u64, next: u64)
    requires gap > 0 && Waiting(cfg.limits, p, gap, target) && p.line.clock < target
    requires next == if p.line.clock + gap <= target then p.line.clock + gap else target
    ensures var q := Apply(cfg, Apply(cfg, p, Send(Feed(0))), Clock(next));
      && Waiting(cfg.limits, q, gap, target) && q.line.clock == next
      && q.line.phase == p.line.phase && q.line.turns == p.line.turns
      && q.state == p.state && q.outs == p.outs && q.connected == p.connected
  {
    var x := p.line;
    if cfg.limits.capacity.Some? {
      var room: nat := cfg.limits.capacity.value - |x.queue|;
      assert Paces(0, gap) == 0;
      assert Paces(room, gap) == Paces(room - 1, gap) + gap;
    }
    var m := Sent(Feed(0), x.clock);
    assert Enqueue(cfg.limits, x, Feed(0)) == x.(queue := x.queue + [m], sent := x.sent + [m]);
  }

  /** Feeding steadily while a stamp is awaited. */
  lemma {:induction false} FeedUntil(cfg: Service, acts: seq<Action<Feed>>, gap: nat, target: u64)
      returns (more: seq<Action<Feed>>)
    requires gap > 0 && Waiting(cfg.limits, Run(cfg, acts), gap, target)
    ensures var p, q := Run(cfg, acts), Run(cfg, more);
      && Waiting(cfg.limits, q, gap, target) && q.line.clock == target
      && q.line.phase == p.line.phase && q.line.turns == p.line.turns
    decreases target - Run(cfg, acts).line.clock
  {
    var x := Run(cfg, acts).line;
    more := acts;
    if x.clock < target {
      var next: u64 := if x.clock + gap <= target then x.clock + gap else target;
      FeedOnce(cfg, Run(cfg, acts), gap, target, next);
      more := RunNext(cfg, more, Send(Feed(0)));
      more := RunNext(cfg, more, Clock(next));
      more := FeedUntil(cfg, more, gap, target);
    }
  }

  /** The empty cycle is measured, stamped and handed to the machine. */
  lemma FinishQuiet(cfg: Service, acts: seq<Action<Feed>>) returns (more: seq<Action<Feed>>)
    requires var p := Run(cfg, acts); p.stage.Ingesting? && p.line.phase.Drained? && p.line.phase.batch == []
    ensures var x, y := Run(cfg, acts).line, Run(cfg, more).line;
      && y.sent == x.sent && y.clock == x.clock
      && |y.turns| == |x.turns| + 1 && y.turns[..|x.turns|] == x.turns
      && var t := y.turns[|x.turns|];
         t.batch == [] && t.empty == x.phase.empty && t.cycle.events == [] && t.cycle.nowNs == x.clock
  {
    more := RunNext(cfg, acts, Iterate);
    more := RunNext(cfg, more, Iterate);
    more := RunNext(cfg, more, Iterate);
  }

  /** A fed cycle at zero, then an empty one that sees the queue empty at `seen` and is stamped at `target`. */
  lemma SteadyRun(limits: Limits, timeoutNs: u64, gap: nat, seen: u64, target: u64) returns (acts: seq<Action<Feed>>)
    requires limits.Valid() && 0 < gap && seen <= gap && seen <= target
    requires limits.capacity.Some? ==> target <= seen + Paces(limits.capacity.value, gap)
    ensures var x := Trace(limits, timeoutNs, acts).line;
      && FedSteadily(x, gap) && |x.turns| == 2
      && |x.turns[0].batch| == 1 && x.turns[0].cycle == Cycle(0, [Feed(0)], 0)
      && x.turns[1].batch == [] && x.turns[1].empty.Some? && x.turns[1].empty.value.at == seen
      && x.turns[1].cycle.events == [] && x.turns[1].cycle.nowNs == target
  {
    var cfg := WatchdogService(limits, timeoutNs);
    acts := FirstFeed(limits, timeoutNs);
    var first := Run(cfg, acts).line.turns;
    acts := EmptyDrain(limits, timeoutNs, acts, seen);
    acts := FeedUntil(cfg, acts, gap, target);
    acts := FinishQuiet(cfg, acts);
    assert Run(cfg, acts).line.turns[..1] == first;
    assert Run(cfg, acts).line.turns[0] == first[0];
  }

  /** Beyond the timeout, some steadily fed run trips. */
  lemma SteadyTripBeyond(limits: Limits, timeoutNs: u64, gap: nat, delay: nat) returns (acts: seq<Action<Feed>>)
    requires limits.Valid() && timeoutNs < LongestSilence(limits, gap, delay) && timeoutNs < MAX_U64
    ensures Steady(limits, timeoutNs, acts, gap, delay) && !Untripped(limits, timeoutNs, acts)
  {
    var target: u64 := timeoutNs + 1;
    var seen: u64 := if gap <= target then gap else target;
    if limits.capacity.Some? {
      PacesIsProduct(limits.capacity.value + 1, gap);
      assert Paces(limits.capacity.value + 1, gap) == Paces(limits.capacity.value, gap) + gap;
    }
    acts := SteadyRun(limits, timeoutNs, gap, seen, target);
    SecondTrips(limits, timeoutNs, acts, target);
  }

  /**
   Steady feeding excludes a trip exactly when the longest silence it allows fits in the timeout, or the
   timeout is the longest there is.
   */
  lemma NoSteadyTripExactly(limits: Limits, timeoutNs: u64, gap: nat, delay: nat)
    requires limits.Valid()
    ensures LongestSilence(limits, gap, delay) <= timeoutNs || timeoutNs == MAX_U64 <==>
      forall acts :: Steady(limits, timeoutNs, acts, gap, delay) ==> Untripped(limits, timeoutNs, acts)
  {
    if timeoutNs == MAX_U64 {
      forall acts ensures Untripped(limits, timeoutNs, acts) { LongestTimeout(limits, acts); }
    } else if LongestSilence(limits, gap, delay) <= timeoutNs {
      forall acts | Steady(limits, timeoutNs, acts, gap, delay) ensures Untripped(limits, timeoutNs, acts) {
        NoSteadyTrip(limits, timeoutNs, acts, gap, delay);
      }
    } else {
      var acts := SteadyTripBeyond(limits, timeoutNs, gap, delay);
    }
  }
}
