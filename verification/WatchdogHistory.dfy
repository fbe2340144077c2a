/**
 What the watchdog's state and alarms say about the whole history of cycles it has seen.
 Nothing here assumes that cycle times increase.
 */
module WatchdogHistory {

  import opened Basics
  import opened Messages
  import opened Machines
  import opened Watchdog

  type Cycles = seq<Cycle<Feed>>

  function After(timeoutNs: u64, cs: Cycles): Model {
    StateAfter<Model, Cycle<Feed>, seq<Alarm>>(OnCycle, Cold(timeoutNs), cs)
  }

  /** The state just after cycle `k`. */
  function StateAt(timeoutNs: u64, cs: Cycles, k: nat): State
    requires k < |cs|
  {
    After(timeoutNs, cs[..k + 1]).state
  }

  function AlarmsAt(timeoutNs: u64, cs: Cycles, k: nat): seq<Alarm>
    requires k < |cs|
  {
    OutputAt<Model, Cycle<Feed>, seq<Alarm>>(OnCycle, Cold(timeoutNs), cs, k)
  }

  /** All alarms of a run, cycle by cycle. */
  function Alarms(timeoutNs: u64, cs: Cycles): seq<seq<Alarm>> {
    Answers<Model, Cycle<Feed>, seq<Alarm>>(OnCycle, Cold(timeoutNs), cs)
  }

  predicate FedAt(cs: Cycles, i: int) {
    0 <= i < |cs| && |cs[i].events| > 0
  }

  ghost predicate NeverFed(cs: Cycles) {
    forall i | 0 <= i < |cs| :: !FedAt(cs, i)
  }

  /** Cycle `i` is the last one that drained a feed. */
  ghost predicate LastFed(cs: Cycles, i: int) {
    FedAt(cs, i) && forall j | i < j < |cs| :: !FedAt(cs, j)
  }

  /** Cycle `k` comes after cycle `i`, later than the timeout allows. */
  predicate Overdue(timeoutNs: u64, cs: Cycles, i: int, k: int) {
    0 <= i < k < |cs| && cs[k].nowNs - cs[i].nowNs > timeoutNs
  }

  /** Some cycle after `i` is overdue. */
  ghost predicate TimedOut(timeoutNs: u64, cs: Cycles, i: int) {
    exists k :: Overdue(timeoutNs, cs, i, k)
  }

  lemma {:induction false} LastFedExists(cs: Cycles) returns (i: int)
    requires !NeverFed(cs)
    ensures LastFed(cs, i)
    decreases |cs|
  {
    var n := |cs| - 1;
    if FedAt(cs, n) {
      i := n;
    } else {
      var j :| 0 <= j < |cs| && FedAt(cs, j);
      assert FedAt(cs[..n], j);
      i := LastFedExists(cs[..n]);
      assert FedAt(cs, i);
      forall j | i < j < |cs| ensures !FedAt(cs, j) {
        if j < n { assert !FedAt(cs[..n], j); }
      }
    }
  }

  lemma LastFedUnique(cs: Cycles, i: int, j: int)
    requires LastFed(cs, i) && LastFed(cs, j)
    ensures i == j
  {
  }

  /** How the history notions move when one cycle is added. */
  lemma HistorySnoc(timeoutNs: u64, cs: Cycles, c: Cycle<Feed>)
    ensures |c.events| > 0 ==>
      !NeverFed(cs + [c]) && LastFed(cs + [c], |cs|) && !TimedOut(timeoutNs, cs + [c], |cs|)
    ensures |c.events| == 0 ==> (NeverFed(cs + [c]) <==> NeverFed(cs))
    ensures |c.events| == 0 ==> forall i :: LastFed(cs + [c], i) <==> LastFed(cs, i)
    ensures |c.events| == 0 ==> forall i | LastFed(cs, i) ::
      TimedOut(timeoutNs, cs + [c], i) <==>
      TimedOut(timeoutNs, cs, i) || c.nowNs - cs[i].nowNs > timeoutNs
  {
    var ds := cs + [c];
    assert forall i | 0 <= i < |cs| :: FedAt(ds, i) == FedAt(cs, i);
    if |c.events| > 0 {
      assert FedAt(ds, |cs|);
    } else {
      assert !FedAt(ds, |cs|);
      forall i | LastFed(cs, i)
        ensures TimedOut(timeoutNs, ds, i) <==>
          TimedOut(timeoutNs, cs, i) || c.nowNs - cs[i].nowNs > timeoutNs
      {
        assert forall k | k < |cs| :: Overdue(timeoutNs, ds, i, k) == Overdue(timeoutNs, cs, i, k);
        assert Overdue(timeoutNs, ds, i, |cs|) == (c.nowNs - cs[i].nowNs > timeoutNs);
      }
    }
  }

  /** The state a watchdog must be in, read off the history alone. */
  ghost predicate Explains(timeoutNs: u64, cs: Cycles, w: Model) {
    && w.timeoutNs == timeoutNs
    && (w.state.Idle? <==> NeverFed(cs))
    && (w.lastFeedNs.None? <==> NeverFed(cs))
    && (forall i | LastFed(cs, i) :: w.lastFeedNs == Some(cs[i].nowNs))
    && (forall i | LastFed(cs, i) :: w.state.Tripped? <==> TimedOut(timeoutNs, cs, i))
  }

  /**
   The automaton refines the history: idle exactly when no cycle was fed, tripped exactly when
   some cycle after the last fed one came later than the timeout allows, armed otherwise.
   */
  lemma {:induction false} StateRefinesHistory(timeoutNs: u64, cs: Cycles)
    ensures Explains(timeoutNs, cs, After(timeoutNs, cs))
    decreases |cs|
  {
    if |cs| > 0 {
      var front, c := cs[..|cs| - 1], cs[|cs| - 1];
      assert cs == front + [c];
      StateRefinesHistory(timeoutNs, front);
      HistorySnoc(timeoutNs, front, c);
      var w := After(timeoutNs, front);
      if |c.events| > 0 {
        forall i | LastFed(cs, i) ensures i == |front| { LastFedUnique(cs, i, |front|); }
      } else if !NeverFed(front) {
        var i := LastFedExists(front);
        forall j | LastFed(front, j) ensures i == j { LastFedUnique(front, i, j); }
      }
    }
  }

  /** Cycle `k` is the first to find the feed of cycle `i` overdue. */
  ghost predicate FirstOverdue(timeoutNs: u64, cs: Cycles, i: int, k: int) {
    && Overdue(timeoutNs, cs, i, k)
    && forall m | i < m < k :: !Overdue(timeoutNs, cs, i, m)
  }

  /** The alarm that cycle `k` must raise, read off the history up to `k`. */
  ghost predicate AlarmExplained(timeoutNs: u64, cs: Cycles, k: nat, outs: seq<Alarm>)
    requires k < |cs|
  {
    && |outs| <= 1
    && (outs == [Alarm.Armed] <==> FedAt(cs, k) && NeverFed(cs[..k]))
    && (outs == [Alarm.Recovered] <==>
         FedAt(cs, k) && exists i :: LastFed(cs[..k], i) && TimedOut(timeoutNs, cs[..k], i))
    && (forall d: u64 :: outs == [Alarm.Tripped(d)] <==>
         !FedAt(cs, k) &&
         exists i :: LastFed(cs[..k], i) && FirstOverdue(timeoutNs, cs, i, k)
                     && d == cs[k].nowNs - cs[i].nowNs)
  }

  /**
   Alarms refine the history: `Armed` exactly at the first fed cycle, `Recovered` exactly at the
   first fed cycle after a timeout, and `Tripped` exactly at the first cycle found overdue, with
   the time since the last fed cycle.
   */
  lemma AlarmsRefineHistory(timeoutNs: u64, cs: Cycles, k: nat)
    requires k < |cs|
    ensures AlarmExplained(timeoutNs, cs, k, AlarmsAt(timeoutNs, cs, k))
  {
    var past := cs[..k];
    StateRefinesHistory(timeoutNs, past);
    var w := After(timeoutNs, past);
    var outs := AlarmsAt(timeoutNs, cs, k);
    assert outs == OnCycle(w, cs[k]).1;
    if NeverFed(past) {
      assert forall i :: !LastFed(past, i);
    } else {
      var i := LastFedExists(past);
      forall j | LastFed(past, j) ensures i == j { LastFedUnique(past, i, j); }
      assert forall m | m < k :: Overdue(timeoutNs, past, i, m) == Overdue(timeoutNs, cs, i, m);
      assert w.state.Tripped? <==> exists m :: Overdue(timeoutNs, past, i, m);
      assert w.state.Armed? ==> forall m | i < m < k :: !Overdue(timeoutNs, past, i, m);
      if w.state.Tripped? {
        var m :| Overdue(timeoutNs, past, i, m);
        assert !FirstOverdue(timeoutNs, cs, i, k);
      }
    }
  }

  /** A trip anywhere in the alarm stream is the whole answer to some cycle. */
  lemma TripOrigin(timeoutNs: u64, cs: Cycles, a: Alarm) returns (k: nat)
    requires a.Tripped? && a in Flatten(Alarms(timeoutNs, cs))
    ensures k < |cs| && AlarmsAt(timeoutNs, cs, k) == [Alarm.Tripped(a.silentNs)]
  {
    k := FlattenOrigin(Alarms(timeoutNs, cs), a);
    AlarmsRefineHistory(timeoutNs, cs, k);
  }

  /** `Armed (Tripped Recovered)*`, possibly cut short. */
  predicate Grammatical(alarms: seq<Alarm>) {
    forall i | 0 <= i < |alarms| ::
      if i == 0 then alarms[i].Armed?
      else if i % 2 == 1 then alarms[i].Tripped?
      else alarms[i].Recovered?
  }

  /** Where the alarm stream stands, as the state shows it. */
  predicate StandsAt(alarms: seq<Alarm>, s: State) {
    match s
    case Idle => |alarms| == 0
    case Armed => |alarms| % 2 == 1
    case Tripped => |alarms| > 0 && |alarms| % 2 == 0
  }

  lemma GrammarSnoc(alarms: seq<Alarm>, w: Model, c: Cycle<Feed>)
    requires Grammatical(alarms) && StandsAt(alarms, w.state)
    ensures Grammatical(alarms + OnCycle(w, c).1)
    ensures StandsAt(alarms + OnCycle(w, c).1, OnCycle(w, c).0.state)
  {
  }

  /** Whatever the timeout, the clock and the number of feeds a cycle carries. */
  lemma {:induction false} AlarmGrammar(timeoutNs: u64, cs: Cycles)
    ensures Grammatical(Flatten(Alarms(timeoutNs, cs)))
    ensures StandsAt(Flatten(Alarms(timeoutNs, cs)), After(timeoutNs, cs).state)
    decreases |cs|
  {
    if |cs| > 0 {
      var front, c := cs[..|cs| - 1], cs[|cs| - 1];
      assert cs == front + [c];
      AlarmGrammar(timeoutNs, front);
      AnswersSnoc<Model, Cycle<Feed>, seq<Alarm>>(OnCycle, Cold(timeoutNs), front, c);
      FlattenSnoc(Alarms(timeoutNs, front), OnCycle(After(timeoutNs, front), c).1);
      GrammarSnoc(Flatten(Alarms(timeoutNs, front)), After(timeoutNs, front), c);
    }
  }

  /**
   Resynchronisation: two watchdogs with the same timeout and any two pasts agree from the first
   cycle that carries a feed on, both in their state and in every later alarm.
   */
  lemma Resynchronises(v: Model, w: Model, c: Cycle<Feed>, later: Cycles, k: nat)
    requires v.timeoutNs == w.timeoutNs
    requires |c.events| > 0 && k < |later|
    ensures StateAfter(OnCycle<Feed>, v, [c] + later) == StateAfter(OnCycle<Feed>, w, [c] + later)
    ensures OutputAt(OnCycle<Feed>, v, [c] + later, 1 + k) == OutputAt(OnCycle<Feed>, w, [c] + later, 1 + k)
  {
    assert [c][..0] == [];
    assert StateAfter(OnCycle<Feed>, v, [c]) == StateAfter(OnCycle<Feed>, w, [c]);
    StateAfterAppend(OnCycle<Feed>, v, [c], later);
    StateAfterAppend(OnCycle<Feed>, w, [c], later);
    OutputAtAppend(OnCycle<Feed>, v, [c], later, k);
    OutputAtAppend(OnCycle<Feed>, w, [c], later, k);
  }

  /** The cycles among a sequence of triggers. */
  function CyclesIn(ts: seq<Trigger<Cycle<Feed>>>): Cycles {
    if |ts| == 0 then []
    else
      var last := ts[|ts| - 1];
      CyclesIn(ts[..|ts| - 1]) + if last.Message? then [last.msg] else []
  }

  /** The triggers `ts` leave and raise what the cycles `cs` do. */
  ghost predicate AmountTo(timeoutNs: u64, ts: seq<Trigger<Cycle<Feed>>>, cs: Cycles) {
    && StateAfter(OnTrigger, Cold(timeoutNs), ts) == After(timeoutNs, cs)
    && Flatten(Answers(OnTrigger, Cold(timeoutNs), ts)) == Flatten(Alarms(timeoutNs, cs))
  }

  lemma TriggerSnoc(timeoutNs: u64, ts: seq<Trigger<Cycle<Feed>>>, cs: Cycles, t: Trigger<Cycle<Feed>>)
    requires AmountTo(timeoutNs, ts, cs)
    ensures StateAfter(OnTrigger, Cold(timeoutNs), ts + [t]) == OnTrigger(After(timeoutNs, cs), t).0
    ensures Flatten(Answers(OnTrigger, Cold(timeoutNs), ts + [t])) ==
      Flatten(Alarms(timeoutNs, cs)) + OnTrigger(After(timeoutNs, cs), t).1
  {
    StateAfterSnoc(OnTrigger, Cold(timeoutNs), ts, t);
    AnswersSnoc(OnTrigger, Cold(timeoutNs), ts, t);
    FlattenSnoc(Answers(OnTrigger, Cold(timeoutNs), ts), OnTrigger(After(timeoutNs, cs), t).1);
  }

  lemma CycleSnoc(timeoutNs: u64, cs: Cycles, c: Cycle<Feed>)
    ensures After(timeoutNs, cs + [c]) == OnCycle(After(timeoutNs, cs), c).0
    ensures Flatten(Alarms(timeoutNs, cs + [c])) == Flatten(Alarms(timeoutNs, cs)) + OnCycle(After(timeoutNs, cs), c).1
  {
    StateAfterSnoc(OnCycle<Feed>, Cold(timeoutNs), cs, c);
    AnswersSnoc(OnCycle<Feed>, Cold(timeoutNs), cs, c);
    FlattenSnoc(Alarms(timeoutNs, cs), OnCycle(After(timeoutNs, cs), c).1);
  }

  /** Time reaches the watchdog in cycles only: ticks change nothing and raise nothing. */
  lemma {:induction false} TicksDoNothing(timeoutNs: u64, ts: seq<Trigger<Cycle<Feed>>>)
    ensures AmountTo(timeoutNs, ts, CyclesIn(ts))
    decreases |ts|
  {
    if |ts| > 0 {
      var front, last := ts[..|ts| - 1], ts[|ts| - 1];
      TicksDoNothing(timeoutNs, front);
      TriggerSnoc(timeoutNs, front, CyclesIn(front), last);
      assert ts == front + [last];
      if last.Message? {
        CycleSnoc(timeoutNs, CyclesIn(front), last.msg);
      } else {
        assert CyclesIn(ts) == CyclesIn(front);
      }
    }
  }

  /** Two cycles the watchdog cannot tell apart: the same stamp, and feeds in both or in neither. */
  predicate Alike(c: Cycle<Feed>, d: Cycle<Feed>) {
    c.nowNs == d.nowNs && (|c.events| > 0 <==> |d.events| > 0)
  }

  /** How many feeds a cycle carries beyond the first, which ones, and the backlog do not matter. */
  lemma {:induction false} OnlyPresenceMatters(timeoutNs: u64, cs: Cycles, ds: Cycles)
    requires |cs| == |ds| && forall k | 0 <= k < |cs| :: Alike(cs[k], ds[k])
    ensures After(timeoutNs, cs) == After(timeoutNs, ds)
    ensures Alarms(timeoutNs, cs) == Alarms(timeoutNs, ds)
    decreases |cs|
  {
    if |cs| > 0 {
      var n := |cs| - 1;
      assert cs == cs[..n] + [cs[n]] && ds == ds[..n] + [ds[n]];
      OnlyPresenceMatters(timeoutNs, cs[..n], ds[..n]);
      AnswersSnoc<Model, Cycle<Feed>, seq<Alarm>>(OnCycle, Cold(timeoutNs), cs[..n], cs[n]);
      AnswersSnoc<Model, Cycle<Feed>, seq<Alarm>>(OnCycle, Cold(timeoutNs), ds[..n], ds[n]);
      assert Alike(cs[n], ds[n]);
    }
  }

  ghost predicate Monotone(cs: Cycles) {
    forall i, j | 0 <= i <= j < |cs| :: cs[i].nowNs <= cs[j].nowNs
  }

  /** When stamps never decrease, the last one alone decides whether the watchdog is tripped. */
  lemma TrippedByLastStamp(timeoutNs: u64, cs: Cycles, i: int)
    requires Monotone(cs) && LastFed(cs, i)
    ensures After(timeoutNs, cs).state.Tripped? <==> cs[|cs| - 1].nowNs - cs[i].nowNs > timeoutNs
  {
    StateRefinesHistory(timeoutNs, cs);
    var last := |cs| - 1;
    if cs[last].nowNs - cs[i].nowNs > timeoutNs {
      assert Overdue(timeoutNs, cs, i, last);
    }
  }

  /**
   Without that, it decides exactly when it is overdue itself or nothing after the last feed is: not
   when some stamp was overdue and the clock then went back.
   */
  lemma LastStampDecidesExactly(timeoutNs: u64, cs: Cycles, i: int)
    requires LastFed(cs, i)
    ensures var late := cs[|cs| - 1].nowNs - cs[i].nowNs > timeoutNs;
      (After(timeoutNs, cs).state.Tripped? <==> late) <==>
      late || forall k | i < k < |cs| :: cs[k].nowNs - cs[i].nowNs <= timeoutNs
  {
    StateRefinesHistory(timeoutNs, cs);
    if cs[|cs| - 1].nowNs - cs[i].nowNs > timeoutNs {
      assert Overdue(timeoutNs, cs, i, |cs| - 1);
    } else if k :| i < k < |cs| && cs[k].nowNs - cs[i].nowNs > timeoutNs {
      assert Overdue(timeoutNs, cs, i, k);
    }
  }

  /** When they may decrease, it does not: a trip is not taken back by an earlier stamp. */
  lemma TrippedDespiteLastStamp()
    ensures var cs := [Cycle(0, [Feed(0)], 0), Cycle(11, [], 0), Cycle(5, [], 0)];
      LastFed(cs, 0) && After(10, cs).state.Tripped? && cs[2].nowNs - cs[0].nowNs <= 10
  {
    var cs := [Cycle(0, [Feed(0)], 0), Cycle(11, [], 0), Cycle(5, [], 0)];
    assert FedAt(cs, 0) && !FedAt(cs, 1) && !FedAt(cs, 2);
    assert Overdue(10, cs, 0, 1);
    StateRefinesHistory(10, cs);
  }
}
