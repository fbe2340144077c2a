/** The bound of `NoFalseTrip` is exact: past the timeout, some run within the bounds trips. */
module TimingExact {

  import opened Basics
  import opened Channels
  import opened Messages
  import opened Intake
  import opened Pipeline
  import opened Delivery
  import opened Watchdog
  import opened WatchdogHistory
  import opened Timing

  /** A feed at time zero, queued. */
  function FirstQueued(): FeedLine {
    Line(0, [Sent(Feed(0), 0)], [Sent(Feed(0), 0)], Between, [])
  }

  /** The same, pulled from the queue. */
  function FirstPulled(): FeedLine {
    Line(0, [], [Sent(Feed(0), 0)], Draining(0, [Sent(Feed(0), 0)], Mark(0, 1)), [])
  }

  lemma QueueFirst(cfg: Service)
    requires cfg.limits.Valid()
    ensures Apply(cfg, Init(cfg), Send(Feed(0))) == Init(cfg).(line := FirstQueued())
  {
    var m := Sent(Feed(0), 0);
    assert [] + [m] == [m];
  }

  lemma PullFirst(cfg: Service)
    requires cfg.limits.Valid()
    ensures var p := Init(cfg).(line := FirstQueued());
      Apply(cfg, Apply(cfg, p, Iterate), Iterate) == Init(cfg).(line := FirstPulled())
  {
    var m := Sent(Feed(0), 0);
    assert [] + [m] == [m] && [m][1..] == [];
    assert Pull(cfg.limits, FirstQueued()) == FirstQueued().(phase := Draining(0, [], Mark(0, 1)));
  }

  lemma FirstSend(cfg: Service) returns (acts: seq<Action<Feed>>)
    requires cfg.limits.Valid()
    ensures Run(cfg, acts) == Init(cfg).(line := FirstQueued())
  {
    QueueFirst(cfg);
    acts := RunNext(cfg, [], Send(Feed(0)));
  }

  lemma FirstPull(cfg: Service) returns (acts: seq<Action<Feed>>)
    requires cfg.limits.Valid()
    ensures Run(cfg, acts) == Init(cfg).(line := FirstPulled())
  {
    PullFirst(cfg);
    acts := FirstSend(cfg);
    acts := RunNext(cfg, acts, Iterate);
    acts := RunNext(cfg, acts, Iterate);
  }

  /** The same, drained by a cycle stamped zero. */
  lemma FirstDrain(limits: Limits, timeoutNs: u64) returns (acts: seq<Action<Feed>>)
    requires limits.Valid()
    ensures var p := Trace(limits, timeoutNs, acts); var x := p.line;
      && p.stage.Ingesting? && p.connected && p.state == Cold(timeoutNs)
      && x.clock == 0 && x.queue == [] && x.sent == [Sent(Feed(0), 0)] && x.turns == []
      && x.phase.Stamped? && x.phase.turn.batch == x.sent && x.phase.turn.cycle == Cycle(0, [Feed(0)], 0)
  {
    var cfg := WatchdogService(limits, timeoutNs);
    acts := FirstPull(cfg);
    acts := RunNext(cfg, acts, Iterate);
    acts := RunNext(cfg, acts, Iterate);
    acts := RunNext(cfg, acts, Iterate);
    assert Run(cfg, acts).line.phase.turn.cycle.events == [Feed(0)];
  }

  /** The same, with the alarm sent and the iteration logged. */
  lemma FirstFeed(limits: Limits, timeoutNs: u64) returns (acts: seq<Action<Feed>>)
    requires limits.Valid()
    ensures var p := Trace(limits, timeoutNs, acts); var x := p.line;
      && p.stage.Ingesting? && x.phase.Between? && x.clock == 0
      && x.queue == [] && x.sent == [Sent(Feed(0), 0)]
      && |x.turns| == 1 && x.turns[0].batch == x.sent && x.turns[0].cycle == Cycle(0, [Feed(0)], 0)
  {
    var cfg := WatchdogService(limits, timeoutNs);
    acts := FirstDrain(limits, timeoutNs);
    acts := RunNext(cfg, acts, Iterate);
    acts := RunNext(cfg, acts, Iterate);
    acts := RunNext(cfg, acts, Iterate);
  }

  /** A drain that sees the queue empty at `gap`. */
  lemma EmptyDrain(limits: Limits, timeoutNs: u64, acts: seq<Action<Feed>>, gap: u64) returns (more: seq<Action<Feed>>)
    requires limits.Valid()
    requires var p := Trace(limits, timeoutNs, acts); var x := p.line;
      p.stage.Ingesting? && x.phase.Between? && x.clock == 0 && x.queue == []
    ensures var x, p := Trace(limits, timeoutNs, acts).line, Trace(limits, timeoutNs, more);
      var now := Mark(gap, |x.sent|);
      && p.stage.Ingesting?
      && p.line == x.(clock := gap, phase := Drained(Taken(x.turns), [], now, Some(now)))
  {
    var cfg := WatchdogService(limits, timeoutNs);
    more := RunNext(cfg, acts, Clock(gap));
    more := RunNext(cfg, more, Iterate);
    more := RunNext(cfg, more, Iterate);
  }

  /** And is stamped at `gap + delay`. */
  lemma EmptyCycle(limits: Limits, timeoutNs: u64, acts: seq<Action<Feed>>, gap: nat, delay: nat)
      returns (more: seq<Action<Feed>>)
    requires limits.Valid() && gap + delay <= MAX_U64
    requires var p := Trace(limits, timeoutNs, acts); var x := p.line;
      p.stage.Ingesting? && x.phase.Between? && x.clock == 0 && x.queue == []
    ensures var x, y := Trace(limits, timeoutNs, acts).line, Trace(limits, timeoutNs, more).line;
      && y.sent == x.sent && |y.turns| == |x.turns| + 1 && y.turns[..|x.turns|] == x.turns
      && var t := y.turns[|x.turns|];
         t.batch == [] && t.empty == Some(Mark(gap, |x.sent|)) && t.cycle == Cycle(gap + delay, [], 0)
  {
    var cfg := WatchdogService(limits, timeoutNs);
    more := EmptyDrain(limits, timeoutNs, acts, gap);
    more := RunNext(cfg, more, Clock(gap + delay));
    more := RunNext(cfg, more, Iterate);
    more := RunNext(cfg, more, Iterate);
    more := RunNext(cfg, more, Iterate);
  }

  /** No cycle of the run raises `Tripped`. */
  ghost predicate Untripped(limits: Limits, timeoutNs: u64, acts: seq<Action<Feed>>) {
    forall a | a in Flatten(Trace(limits, timeoutNs, acts).outs) :: !a.Tripped?
  }

  /** The run keeps within the two bounds. */
  ghost predicate Within(limits: Limits, timeoutNs: u64, acts: seq<Action<Feed>>, gap: nat, delay: nat) {
    HeardWithin(Trace(limits, timeoutNs, acts).line, gap) && StampedWithin(Trace(limits, timeoutNs, acts).line, delay)
  }

  /** An empty second cycle that is overdue trips. */
  lemma SecondTrips(limits: Limits, timeoutNs: u64, acts: seq<Action<Feed>>, target: u64)
    requires timeoutNs < target
    requires var cs := CyclesOf(Trace(limits, timeoutNs, acts).line.turns);
      |cs| == 2 && cs[0] == Cycle(0, [Feed(0)], 0) && cs[1].events == [] && cs[1].nowNs == target
    ensures !Untripped(limits, timeoutNs, acts)
  {
    var cs := CyclesOf(Trace(limits, timeoutNs, acts).line.turns);
    assert FedAt(cs, 0) && !FedAt(cs, 1) && LastFed(cs, 0);
    assert FirstOverdue(timeoutNs, cs, 0, 1);
    TrippedSince(timeoutNs, cs, 0, 1, 1);
    TraceIsHistory(limits, timeoutNs, acts);
    FlattenMember(Alarms(timeoutNs, cs), 1, Alarm.Tripped(target));
  }

  /** Beyond the timeout, a feed followed by a late enough empty cycle trips. */
  lemma TripBeyond(limits: Limits, timeoutNs: u64, gap: nat, delay: nat) returns (acts: seq<Action<Feed>>)
    requires limits.Valid() && timeoutNs < gap + delay <= MAX_U64
    ensures Within(limits, timeoutNs, acts, gap, delay) && !Untripped(limits, timeoutNs, acts)
  {
    acts := FirstFeed(limits, timeoutNs);
    var x := Trace(limits, timeoutNs, acts).line;
    acts := EmptyCycle(limits, timeoutNs, acts, gap, delay);
    var y := Trace(limits, timeoutNs, acts).line;
    assert y.turns[0] == x.turns[0];
    SecondTrips(limits, timeoutNs, acts, gap + delay);
  }

  /** Looser bounds admit every run that tighter ones admit. */
  lemma WithinLooser(limits: Limits, timeoutNs: u64, acts: seq<Action<Feed>>, gap: nat, delay: nat, g: nat, d: nat)
    requires Within(limits, timeoutNs, acts, g, d) && g <= gap && d <= delay
    ensures Within(limits, timeoutNs, acts, gap, delay)
  {
  }

  /** No silence is longer than the longest timeout there is. */
  lemma LongestTimeout(limits: Limits, acts: seq<Action<Feed>>)
    ensures Untripped(limits, MAX_U64, acts)
  {
    TraceIsHistory(limits, MAX_U64, acts);
    var cs := CyclesOf(Trace(limits, MAX_U64, acts).line.turns);
    forall a | a in Flatten(Trace(limits, MAX_U64, acts).outs) ensures !a.Tripped? {
      if a.Tripped? {
        var k := TripOrigin(MAX_U64, cs, a);
        AlarmsRefineHistory(MAX_U64, cs, k);
      }
    }
  }

  /**
   The two bounds exclude a trip exactly when together they fit in the timeout, or when the timeout is
   the longest there is.
   */
  lemma NoFalseTripExactly(limits: Limits, timeoutNs: u64, gap: nat, delay: nat)
    requires limits.Valid()
    ensures gap + delay <= timeoutNs || timeoutNs == MAX_U64 <==>
      forall acts :: Within(limits, timeoutNs, acts, gap, delay) ==> Untripped(limits, timeoutNs, acts)
  {
    if timeoutNs == MAX_U64 {
      forall acts ensures Untripped(limits, timeoutNs, acts) { LongestTimeout(limits, acts); }
    } else if gap + delay <= timeoutNs {
      forall acts, a | Within(limits, timeoutNs, acts, gap, delay) && a in Flatten(Trace(limits, timeoutNs, acts).outs)
        ensures !a.Tripped?
      {
        NoFalseTrip(limits, timeoutNs, acts, gap, delay, a);
      }
    } else {
      var g := if gap <= timeoutNs then gap else timeoutNs + 1;
      var acts := TripBeyond(limits, timeoutNs, g, timeoutNs + 1 - g);
      WithinLooser(limits, timeoutNs, acts, gap, delay, g, timeoutNs + 1 - g);
    }
  }
}
