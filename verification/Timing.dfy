/** End-to-end timing of the watchdog service, over every interleaving. */
module Timing {

  import opened Basics
  import opened Channels
  import opened Messages
  import opened Intake
  import opened Pipeline
  import opened Delivery
  import opened Watchdog
  import opened WatchdogHistory

  type Service = Config<Model, Feed, Alarm>

  type FeedLine = Line<Feed>

  /** The service: an inbound line with these limits in front of a cold watchdog. */
  function WatchdogService(limits: Limits, timeoutNs: u64): Service {
    Config(limits, Cold(timeoutNs), OnCycle)
  }

  function Trace(limits: Limits, timeoutNs: u64, acts: seq<Action<Feed>>): Pipe<Model, Feed, Alarm> {
    Run(WatchdogService(limits, timeoutNs), acts)
  }

  /** The service's state and outputs are the watchdog's, on the cycles of the run. */
  lemma TraceIsHistory(limits: Limits, timeoutNs: u64, acts: seq<Action<Feed>>)
    ensures var p := Trace(limits, timeoutNs, acts);
      && Inv(limits, p.line)
      && p.state == After(timeoutNs, CyclesOf(p.line.turns))
      && p.outs == Alarms(timeoutNs, CyclesOf(p.line.turns))
      && p.outbound <= Flatten(p.outs)
  {
    var cfg := WatchdogService(limits, timeoutNs);
    RunGood(cfg, acts);
    EgressPrefix(cfg, acts);
  }

  /** In a live run the machine is tripped exactly when the latest stamp is overdue. */
  lemma LiveTripped(limits: Limits, timeoutNs: u64, acts: seq<Action<Feed>>, i: int)
    requires LastFed(CyclesOf(Trace(limits, timeoutNs, acts).line.turns), i)
    ensures var p := Trace(limits, timeoutNs, acts); var cs := CyclesOf(p.line.turns);
      Monotone(cs) && (p.state.state.Tripped? <==> cs[|cs| - 1].nowNs - cs[i].nowNs > timeoutNs)
  {
    TraceIsHistory(limits, timeoutNs, acts);
    var x := Trace(limits, timeoutNs, acts).line;
    LineIsMonotone(x.sent, x.clock, limits.maxBatch, x.turns);
    TrippedByLastStamp(timeoutNs, CyclesOf(x.turns), i);
  }

  lemma LineIsMonotone(sent: seq<Sent<Feed>>, clock: u64, maxBatch: nat, turns: seq<Turn<Feed>>)
    requires TurnsOk(sent, clock, maxBatch, turns) && ChainOk(turns)
    ensures Monotone(CyclesOf(turns))
  {
    forall j, k | 0 <= j <= k < |turns| ensures turns[j].cycle.nowNs <= turns[k].cycle.nowNs {
      StampsIncrease(sent, clock, maxBatch, turns, j, k);
    }
  }

  // ---------------------------------------------------------------------------
  // No false trip
  // ---------------------------------------------------------------------------

  /** A turn that drained nothing. */
  predicate Quiet<T>(t: Turn<T>) {
    |t.batch| == 0
  }

  /** Whenever an empty cycle saw the queue empty, the latest feed was at most `gap` old. */
  ghost predicate HeardWithin<T>(x: Line<T>, gap: nat) {
    forall k | 0 <= k < |x.turns| && Quiet(x.turns[k]) && x.turns[k].empty.Some? ::
      var e := x.turns[k].empty.value;
      0 < e.sent <= |x.sent| ==> e.at <= x.sent[e.sent - 1].at + gap
  }

  /** Every empty cycle read its stamp at most `delay` after it saw the queue empty. */
  ghost predicate StampedWithin<T>(x: Line<T>, delay: nat) {
    forall k | 0 <= k < |x.turns| && Quiet(x.turns[k]) && x.turns[k].empty.Some? ::
      x.turns[k].cycle.nowNs <= x.turns[k].empty.value.at + delay
  }

  /** Consecutive feeds are at most `gap` apart, and feeding has not stopped by now. */
  ghost predicate FedSteadily<T>(x: Line<T>, gap: nat) {
    && (forall j | 0 < j < |x.sent| :: x.sent[j].at <= x.sent[j - 1].at + gap)
    && (|x.sent| > 0 ==> x.clock <= x.sent[|x.sent| - 1].at + gap)
  }

  /** At a moment in a steady run, the latest feed is recent. */
  lemma SteadyAtMark<T>(sent: seq<Sent<T>>, clock: u64, gap: nat, m: Mark)
    requires MarkOk(sent, clock, m) && 0 < m.sent
    requires forall j | 0 < j < |sent| :: sent[j].at <= sent[j - 1].at + gap
    requires clock <= sent[|sent| - 1].at + gap
    ensures m.at <= sent[m.sent - 1].at + gap
  {
    if m.sent < |sent| {
      assert m.at <= sent[m.sent].at;
    }
  }

  lemma SteadyIsHeard<T>(limits: Limits, x: Line<T>, gap: nat)
    requires TurnsOk(x.sent, x.clock, limits.maxBatch, x.turns) && FedSteadily(x, gap)
    ensures HeardWithin(x, gap)
  {
    forall k | 0 <= k < |x.turns| && Quiet(x.turns[k]) && x.turns[k].empty.Some?
      ensures var e := x.turns[k].empty.value;
        0 < e.sent <= |x.sent| ==> e.at <= x.sent[e.sent - 1].at + gap
    {
      assert TurnOk(x.sent, x.clock, limits.maxBatch, x.turns[k]);
      if 0 < x.turns[k].empty.value.sent {
        SteadyAtMark(x.sent, x.clock, gap, x.turns[k].empty.value);
      }
    }
  }

  /** Turns that drain nothing do not move the position. */
  lemma {:induction false} QuietTurns<T>(turns: seq<Turn<T>>, i: nat, k: nat)
    requires ChainOk(turns) && i < k < |turns|
    requires forall j | i < j < k :: Quiet(turns[j])
    ensures turns[k].first == turns[i].Next()
    decreases k
  {
    assert Follows(turns[k - 1], turns[k].first, turns[k].began);
    if i < k - 1 {
      QuietTurns(turns, i, k - 1);
    }
  }

  /** An empty cycle cannot be far from the last fed one. */
  lemma QuietIsNear<T>(sent: seq<Sent<T>>, clock: u64, maxBatch: nat, turns: seq<Turn<T>>,
                       i: nat, k: nat, gap: nat, delay: nat)
    requires TurnsOk(sent, clock, maxBatch, turns) && ChainOk(turns) && maxBatch > 0
    requires i < k < |turns| && !Quiet(turns[i])
    requires forall j | i < j <= k :: Quiet(turns[j])
    requires turns[k].empty.Some? && 0 < turns[k].empty.value.sent <= |sent| ==>
      turns[k].empty.value.at <= sent[turns[k].empty.value.sent - 1].at + gap
    requires turns[k].empty.Some? ==> turns[k].cycle.nowNs <= turns[k].empty.value.at + delay
    ensures turns[k].cycle.nowNs <= turns[i].cycle.nowNs + gap + delay
  {
    QuietTurns(turns, i, k);
    var t, u := turns[i], turns[k];
    assert TurnOk(sent, clock, maxBatch, t);
    assert TurnOk(sent, clock, maxBatch, u);
    var last := t.Next() - 1;
    assert u.empty.value.sent == t.Next();
    assert sent[last].at <= t.counted.at <= t.cycle.nowNs;
  }

  /** Cycles without feeds are turns that drained nothing. */
  lemma QuietBetween(limits: Limits, x: FeedLine, i: nat, k: nat)
    requires TurnsOk(x.sent, x.clock, limits.maxBatch, x.turns)
    requires i < k < |x.turns|
    requires LastFed(CyclesOf(x.turns)[..k], i) && !FedAt(CyclesOf(x.turns), k)
    ensures !Quiet(x.turns[i]) && forall j | i < j <= k :: Quiet(x.turns[j])
  {
    var cs := CyclesOf(x.turns);
    assert TurnOk(x.sent, x.clock, limits.maxBatch, x.turns[i]);
    forall j | i < j <= k ensures Quiet(x.turns[j]) {
      assert TurnOk(x.sent, x.clock, limits.maxBatch, x.turns[j]);
      if j < k { assert !FedAt(cs[..k], j); }
    }
  }

  /** Under these conditions no cycle raises `Tripped`. */
  lemma NoTripAt(limits: Limits, timeoutNs: u64, x: FeedLine, gap: nat, delay: nat, k: nat, silentNs: u64)
    requires limits.Valid() && gap + delay <= timeoutNs
    requires TurnsOk(x.sent, x.clock, limits.maxBatch, x.turns) && ChainOk(x.turns)
    requires HeardWithin(x, gap) && StampedWithin(x, delay)
    requires k < |x.turns|
    ensures AlarmsAt(timeoutNs, CyclesOf(x.turns), k) != [Alarm.Tripped(silentNs)]
  {
    var cs := CyclesOf(x.turns);
    AlarmsRefineHistory(timeoutNs, cs, k);
    if AlarmsAt(timeoutNs, cs, k) == [Alarm.Tripped(silentNs)] {
      var i :| LastFed(cs[..k], i) && FirstOverdue(timeoutNs, cs, i, k);
      QuietBetween(limits, x, i, k);
      QuietIsNear(x.sent, x.clock, limits.maxBatch, x.turns, i, k, gap, delay);
    }
  }

  /**
   No false trip. Whatever the interleaving, the backlog, the batch cap and the capacity: if an
   empty queue is never seen more than `gap` after the latest feed, an empty cycle never stamped more
   than `delay` after it saw the queue empty, and the two fit in the timeout, then the machine never
   raises `Tripped` and the transport never receives it.
   */
  lemma NoFalseTrip(limits: Limits, timeoutNs: u64, acts: seq<Action<Feed>>, gap: nat, delay: nat, a: Alarm)
    requires limits.Valid() && gap + delay <= timeoutNs
    requires HeardWithin(Trace(limits, timeoutNs, acts).line, gap)
    requires StampedWithin(Trace(limits, timeoutNs, acts).line, delay)
    requires a in Flatten(Trace(limits, timeoutNs, acts).outs) || a in Trace(limits, timeoutNs, acts).outbound
    ensures !a.Tripped?
  {
    TraceIsHistory(limits, timeoutNs, acts);
    var x := Trace(limits, timeoutNs, acts).line;
    if a.Tripped? {
      var k := TripOrigin(timeoutNs, CyclesOf(x.turns), a);
      NoTripAt(limits, timeoutNs, x, gap, delay, k, a.silentNs);
    }
  }

  /** The same, for feeds enqueued at most `gap` apart and still coming. */
  lemma NoFalseTripWhileFed(limits: Limits, timeoutNs: u64, acts: seq<Action<Feed>>, gap: nat, delay: nat, a: Alarm)
    requires limits.Valid() && gap + delay <= timeoutNs
    requires FedSteadily(Trace(limits, timeoutNs, acts).line, gap)
    requires StampedWithin(Trace(limits, timeoutNs, acts).line, delay)
    requires a in Flatten(Trace(limits, timeoutNs, acts).outs) || a in Trace(limits, timeoutNs, acts).outbound
    ensures !a.Tripped?
  {
    RunInv(WatchdogService(limits, timeoutNs), acts);
    SteadyIsHeard(limits, Trace(limits, timeoutNs, acts).line, gap);
    NoFalseTrip(limits, timeoutNs, acts, gap, delay, a);
  }

  // ---------------------------------------------------------------------------
  // Bounded detection
  // ---------------------------------------------------------------------------

  /** The stamp before cycle `k`. */
  function StampBefore<T>(cs: seq<Cycle<T>>, k: nat, start: u64): u64
    requires k < |cs|
  {
    if k == 0 then start else cs[k - 1].nowNs
  }

  /** From cycle `n` on, stamps are at most `pace` apart; a very first one counts from `start`. */
  ghost predicate Paced<T>(cs: seq<Cycle<T>>, n: nat, start: u64, pace: nat) {
    forall k | n <= k < |cs| :: cs[k].nowNs <= StampBefore(cs, k, start) + pace
  }

  /** The cycles before `n` were stamped by `start`. */
  ghost predicate OldBy<T>(cs: seq<Cycle<T>>, n: nat, start: u64) {
    n <= |cs| && forall k | 0 <= k < n :: cs[k].nowNs <= start
  }

  /** `n` paces, as a sum. */
  function Paces(n: nat, pace: nat): nat {
    if n == 0 then 0 else Paces(n - 1, pace) + pace
  }

  lemma {:induction false} PacesIsProduct(n: nat, pace: nat)
    ensures Paces(n, pace) == n * pace
  {
    if n > 0 { PacesIsProduct(n - 1, pace); }
  }

  lemma {:induction false} PacedBound<T>(cs: seq<Cycle<T>>, n: nat, start: u64, pace: nat, j: nat)
    requires Paced(cs, n, start, pace) && OldBy(cs, n, start) && n + j < |cs|
    ensures cs[n + j].nowNs <= start + Paces(j + 1, pace)
    decreases j
  {
    var k := n + j;
    assert cs[k].nowNs <= StampBefore(cs, k, start) + pace;
    if j > 0 {
      PacedBound(cs, n, start, pace, j - 1);
      assert k - 1 == n + (j - 1);
    }
  }

  lemma {:induction false} PacesMonotone(a: nat, b: nat, pace: nat)
    requires a <= b
    ensures Paces(a, pace) <= Paces(b, pace)
    decreases b
  {
    if a < b { PacesMonotone(a, b - 1, pace); }
  }

  /** Once everything ever sent has been drained, turns drain nothing. */
  lemma {:induction false} QuietOnceDrained<T>(sent: seq<Sent<T>>, clock: u64, maxBatch: nat, turns: seq<Turn<T>>,
                                               m: nat, k: nat)
    requires TurnsOk(sent, clock, maxBatch, turns) && ChainOk(turns) && m <= k < |turns|
    requires Position(turns, m) == |sent|
    ensures Position(turns, k) == |sent| && Quiet(turns[k]) && turns[k].cycle.events == []
    decreases k
  {
    if m < k {
      QuietOnceDrained(sent, clock, maxBatch, turns, m, k - 1);
    }
    assert TurnOk(sent, clock, maxBatch, turns[k]);
    TurnProgress(sent, clock, maxBatch, turns, k);
  }

  /** If anything was drained, some cycle was fed. */
  lemma {:induction false} DrainedMeansFed(sent: seq<Sent<Feed>>, clock: u64, maxBatch: nat,
                                           turns: seq<Turn<Feed>>, k: nat)
    requires TurnsOk(sent, clock, maxBatch, turns) && ChainOk(turns) && k <= |turns|
    requires Position(turns, k) > 0
    ensures !NeverFed(CyclesOf(turns))
    decreases k
  {
    assert TurnOk(sent, clock, maxBatch, turns[k - 1]);
    if Quiet(turns[k - 1]) {
      DrainedMeansFed(sent, clock, maxBatch, turns, k - 1);
    } else {
      assert FedAt(CyclesOf(turns), k - 1);
    }
  }

  /** The first cycle found overdue, when some cycle is. */
  lemma {:induction false} FirstOverdueExists(timeoutNs: u64, cs: Cycles, i: nat, m: nat) returns (k: nat)
    requires Overdue(timeoutNs, cs, i, m)
    ensures k <= m && FirstOverdue(timeoutNs, cs, i, k)
    decreases m
  {
    if j :| i < j < m && Overdue(timeoutNs, cs, i, j) {
      k := FirstOverdueExists(timeoutNs, cs, i, j);
    } else {
      k := m;
    }
  }

  /** From the first overdue cycle on, the watchdog is tripped until the next feed. */
  lemma TrippedSince(timeoutNs: u64, cs: Cycles, i: nat, k: nat, m: nat)
    requires LastFed(cs, i) && FirstOverdue(timeoutNs, cs, i, k) && k <= m < |cs|
    ensures StateAt(timeoutNs, cs, m).Tripped?
    ensures AlarmsAt(timeoutNs, cs, k) == [Alarm.Tripped(cs[k].nowNs - cs[i].nowNs)]
  {
    var past := cs[..m + 1];
    assert FedAt(past, i);
    assert forall j | i < j < |past| :: FedAt(past, j) == FedAt(cs, j);
    assert LastFed(past, i);
    assert Overdue(timeoutNs, past, i, k);
    StateRefinesHistory(timeoutNs, past);
    AlarmsRefineHistory(timeoutNs, cs, k);
    assert FedAt(cs[..k], i);
    assert forall j | i < j < k :: FedAt(cs[..k], j) == FedAt(cs, j);
    assert LastFed(cs[..k], i);
  }

  /** Cycles completed by a moment carry stamps up to that moment. */
  lemma OldStamps(limits: Limits, x: FeedLine, y: FeedLine)
    requires TurnsOk(x.sent, x.clock, limits.maxBatch, x.turns) && Later(x, y)
    ensures OldBy(CyclesOf(y.turns), |x.turns|, x.clock)
  {
    forall k | 0 <= k < |x.turns| ensures y.turns[k].cycle.nowNs <= x.clock {
      assert TurnOk(x.sent, x.clock, limits.maxBatch, x.turns[k]);
    }
  }

  /** What the lemmas below assume: nothing was sent between `x`, a moment between cycles, and `y`. */
  ghost predicate Silent(limits: Limits, x: FeedLine, y: FeedLine, pace: nat) {
    && limits.Valid() && |x.sent| > 0 && y.sent == x.sent && Later(x, y)
    && QueueOk(limits, x.queue, x.sent, Taken(x.turns))
    && TurnsOk(x.sent, x.clock, limits.maxBatch, x.turns)
    && TurnsOk(y.sent, y.clock, limits.maxBatch, y.turns) && ChainOk(y.turns)
    && Paced(CyclesOf(y.turns), |x.turns|, x.clock, pace)
  }

  /** The cycles it takes to drain what was queued at the beginning of the silence. */
  function DrainCycles(limits: Limits, x: FeedLine): nat
    requires limits.Valid()
  {
    Batches(|x.queue|, limits.maxBatch)
  }

  /** The first cycles are stamped early. */
  lemma EarlyStamp<T>(cs: seq<Cycle<T>>, n: nat, start: u64, pace: nat, d: nat, i: nat)
    requires Paced(cs, n, start, pace) && OldBy(cs, n, start) && i < |cs| && i < n + d
    ensures cs[i].nowNs <= start + Paces(d, pace)
  {
    if i >= n {
      PacedBound(cs, n, start, pace, i - n);
      PacesMonotone(i - n + 1, d, pace);
    }
  }

  /** Enough full batches for the `queued` messages left drain everything sent. */
  lemma AllDrained<T>(sent: seq<Sent<T>>, clock: u64, maxBatch: nat, turns: seq<Turn<T>>, n: nat, queued: nat, d: nat)
    requires TurnsOk(sent, clock, maxBatch, turns) && ChainOk(turns) && n + d < |turns|
    requires forall k | n <= k < |turns| :: |sent| <= turns[k].began.sent
    requires Position(turns, n) + queued == |sent| && d * maxBatch >= queued
    ensures Position(turns, n + d) == |sent|
  {
    DrainProgress(sent, clock, maxBatch, turns, n, |sent|, d);
    TurnProgress(sent, clock, maxBatch, turns, n + d);
    assert TurnOk(sent, clock, maxBatch, turns[n + d]);
  }

  /** Those cycles drain the whole queue. */
  lemma QueueDrained(limits: Limits, x: FeedLine, y: FeedLine)
    requires limits.Valid() && y.sent == x.sent && Later(x, y)
    requires QueueOk(limits, x.queue, x.sent, Taken(x.turns))
    requires TurnsOk(y.sent, y.clock, limits.maxBatch, y.turns) && ChainOk(y.turns)
    requires |x.turns| + DrainCycles(limits, x) < |y.turns|
    ensures Position(y.turns, |x.turns| + DrainCycles(limits, x)) == |y.sent|
  {
    assert Position(y.turns, |x.turns|) == Taken(x.turns);
    BatchesSuffice(|x.queue|, limits.maxBatch);
    AllDrained(y.sent, y.clock, limits.maxBatch, y.turns, |x.turns|, |x.queue|, DrainCycles(limits, x));
  }

  /** The last fed cycle comes before the one that finds everything drained. */
  lemma LastFeedIsSoon(sent: seq<Sent<Feed>>, clock: u64, maxBatch: nat, turns: seq<Turn<Feed>>, m: nat)
      returns (i: nat)
    requires TurnsOk(sent, clock, maxBatch, turns) && ChainOk(turns) && |sent| > 0
    requires m < |turns| && Position(turns, m) == |sent|
    ensures i < m && LastFed(CyclesOf(turns), i)
  {
    DrainedMeansFed(sent, clock, maxBatch, turns, m);
    i := LastFedExists(CyclesOf(turns));
    if i >= m {
      QuietOnceDrained(sent, clock, maxBatch, turns, m, i);
    }
  }

  /** The only alarm is a trip, with a silence above `low` and up to `high`. */
  predicate TrippedBetween(alarms: seq<Alarm>, low: nat, high: nat) {
    |alarms| == 1 && alarms[0].Tripped? && low < alarms[0].silentNs <= high
  }

  /**
   The watchdog is tripped from cycle `k` on. Cycle `k` is stamped at most `slack`, the timeout and one
   pace after the start of the silence, before which `n` cycles had completed; and if it is not one of
   those, it raised the alarm, with a silence between the timeout and the timeout plus one pace.
   */
  ghost predicate Detected(timeoutNs: u64, cs: Cycles, n: nat, start: u64, pace: nat, slack: nat, k: nat) {
    && k < |cs|
    && cs[k].nowNs <= start + slack + timeoutNs + pace
    && (forall m | k <= m < |cs| :: StateAt(timeoutNs, cs, m).Tripped?)
    && (k >= n ==> TrippedBetween(AlarmsAt(timeoutNs, cs, k), timeoutNs, timeoutNs + pace))
  }

  /** The first overdue cycle is not long overdue: the one before it was not. */
  lemma FirstOverdueIsSoon(timeoutNs: u64, cs: Cycles, n: nat, start: u64, pace: nat, i: nat, k: nat)
    requires Paced(cs, n, start, pace) && OldBy(cs, n, start) && FirstOverdue(timeoutNs, cs, i, k)
    ensures k < n ==> cs[k].nowNs <= start
    ensures k >= n ==> cs[k].nowNs <= cs[i].nowNs + timeoutNs + pace
  {
    assert k - 1 == i || !Overdue(timeoutNs, cs, i, k - 1);
    assert k >= n ==> cs[k].nowNs <= StampBefore(cs, k, start) + pace;
  }

  /** And it raises the alarm. */
  lemma FirstOverdueAlarm(timeoutNs: u64, cs: Cycles, i: nat, k: nat, pace: nat)
    requires LastFed(cs, i) && FirstOverdue(timeoutNs, cs, i, k)
    requires cs[k].nowNs <= cs[i].nowNs + timeoutNs + pace
    ensures TrippedBetween(AlarmsAt(timeoutNs, cs, k), timeoutNs, timeoutNs + pace)
  {
    TrippedSince(timeoutNs, cs, i, k, k);
  }

  /** The bound on detection, on a history whose last fed cycle is stamped by `start + slack`. */
  lemma HistoryDetects(timeoutNs: u64, cs: Cycles, n: nat, start: u64, pace: nat, slack: nat, i: nat, last: nat)
      returns (k: nat)
    requires Paced(cs, n, start, pace) && OldBy(cs, n, start)
    requires LastFed(cs, i) && cs[i].nowNs <= start + slack
    requires i < last < |cs| && cs[last].nowNs > start + slack + timeoutNs
    ensures k <= last && Detected(timeoutNs, cs, n, start, pace, slack, k)
  {
    assert Overdue(timeoutNs, cs, i, last);
    k := FirstOverdueExists(timeoutNs, cs, i, last);
    FirstOverdueIsSoon(timeoutNs, cs, n, start, pace, i, k);
    if k >= n { FirstOverdueAlarm(timeoutNs, cs, i, k, pace); }
    forall m | k <= m < |cs| ensures StateAt(timeoutNs, cs, m).Tripped? {
      TrippedSince(timeoutNs, cs, i, k, m);
    }
  }

  /** The bound on detection, when everything sent is drained within `d` cycles. */
  lemma TurnsDetect(timeoutNs: u64, sent: seq<Sent<Feed>>, clock: u64, maxBatch: nat, turns: seq<Turn<Feed>>,
                    n: nat, start: u64, pace: nat, d: nat, last: nat) returns (k: nat)
    requires TurnsOk(sent, clock, maxBatch, turns) && ChainOk(turns) && |sent| > 0
    requires Paced(CyclesOf(turns), n, start, pace) && OldBy(CyclesOf(turns), n, start)
    requires n + d < |turns| ==> Position(turns, n + d) == |sent|
    requires last < |turns| && CyclesOf(turns)[last].nowNs > start + Paces(d, pace) + timeoutNs
    ensures k <= last && Detected(timeoutNs, CyclesOf(turns), n, start, pace, Paces(d, pace), k)
  {
    var cs := CyclesOf(turns);
    if last < n + d { EarlyStamp(cs, n, start, pace, d, last); }
    var i := LastFeedIsSoon(sent, clock, maxBatch, turns, n + d);
    EarlyStamp(cs, n, start, pace, d, i);
    k := HistoryDetects(timeoutNs, cs, n, start, pace, Paces(d, pace), i, last);
  }

  /** The bound on detection, on two states of the line. */
  lemma LineDetects(limits: Limits, timeoutNs: u64, x: FeedLine, y: FeedLine, pace: nat, d: nat, last: nat)
      returns (k: nat)
    requires Silent(limits, x, y, pace) && last < |y.turns|
    requires |x.turns| + d < |y.turns| ==> Position(y.turns, |x.turns| + d) == |y.sent|
    requires CyclesOf(y.turns)[last].nowNs > x.clock + Paces(d, pace) + timeoutNs
    ensures k <= last
    ensures Detected(timeoutNs, CyclesOf(y.turns), |x.turns|, x.clock, pace, Paces(d, pace), k)
  {
    OldStamps(limits, x, y);
    k := TurnsDetect(timeoutNs, y.sent, y.clock, limits.maxBatch, y.turns, |x.turns|, x.clock, pace, d, last);
  }

  /**
   Bounded detection. Take any moment between cycles with some feed already sent, after which no
   feed arrives, and let stamps be at most `pace` apart from then on. Once the run has gone on for
   long enough, the machine was tripped by a cycle stamped within the bound, and has stayed so.
   */
  lemma BoundedDetection(limits: Limits, timeoutNs: u64, acts: seq<Action<Feed>>, more: seq<Action<Feed>>,
                         pace: nat, last: nat) returns (k: nat)
    requires limits.Valid()
    requires Trace(limits, timeoutNs, acts).line.phase.Between? && |Trace(limits, timeoutNs, acts).line.sent| > 0
    requires Trace(limits, timeoutNs, acts + more).line.sent == Trace(limits, timeoutNs, acts).line.sent
    requires var x, y := Trace(limits, timeoutNs, acts).line, Trace(limits, timeoutNs, acts + more).line;
      && Paced(CyclesOf(y.turns), |x.turns|, x.clock, pace)
      && last < |y.turns|
      && CyclesOf(y.turns)[last].nowNs > x.clock + DrainCycles(limits, x) * pace + timeoutNs
    ensures k <= last
    ensures var x, y := Trace(limits, timeoutNs, acts).line, Trace(limits, timeoutNs, acts + more).line;
      Detected(timeoutNs, CyclesOf(y.turns), |x.turns|, x.clock, pace, DrainCycles(limits, x) * pace, k)
  {
    SilenceStarts(limits, timeoutNs, acts, more, pace);
    var x, y := Trace(limits, timeoutNs, acts).line, Trace(limits, timeoutNs, acts + more).line;
    var d := DrainCycles(limits, x);
    PacesIsProduct(d, pace);
    if |x.turns| + d < |y.turns| { QueueDrained(limits, x, y); }
    k := LineDetects(limits, timeoutNs, x, y, pace, d, last);
  }

  lemma SilenceStarts(limits: Limits, timeoutNs: u64, acts: seq<Action<Feed>>, more: seq<Action<Feed>>, pace: nat)
    requires limits.Valid()
    requires Trace(limits, timeoutNs, acts).line.phase.Between? && |Trace(limits, timeoutNs, acts).line.sent| > 0
    requires Trace(limits, timeoutNs, acts + more).line.sent == Trace(limits, timeoutNs, acts).line.sent
    requires var x, y := Trace(limits, timeoutNs, acts).line, Trace(limits, timeoutNs, acts + more).line;
      Paced(CyclesOf(y.turns), |x.turns|, x.clock, pace)
    ensures Silent(limits, Trace(limits, timeoutNs, acts).line, Trace(limits, timeoutNs, acts + more).line, pace)
  {
    var cfg := WatchdogService(limits, timeoutNs);
    RunInv(cfg, acts);
    RunInv(cfg, acts + more);
    RunLater(cfg, acts, more);
  }
}
