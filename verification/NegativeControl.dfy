/**
 The negative control: take the recording of a live watchdog run, drop the feeds of the cycle that
 armed it, and replay. The gate must notice. It does, at exactly that step; and the damage is
 bounded, because the next feed brings the two machines back together.
 */
module NegativeControl {

  import opened Basics
  import opened Channels
  import opened Messages
  import opened Machines
  import opened Intake
  import opened Pipeline
  import opened Watchdog
  import opened WatchdogHistory
  import opened Timing
  import opened Replay
  import opened LiveReplay

  type AlarmLog = seq<Copperlist<Feed, Alarm>>

  function WatchdogGate<E>(timeoutNs: u64, encode: Option<Batch<Alarm>> -> Option<E>)
    : Gate<Model, Cycle<Feed>, Option<Batch<Alarm>>, E>
  {
    Gate(BatchStep<Model, Feed, Alarm>(OnCycle), Cold(timeoutNs), encode)
  }

  /** Every output is the cold watchdog's. */
  ghost predicate Honest(timeoutNs: u64, rec: AlarmLog) {
    forall i | 0 <= i < |rec| :: rec[i].output == BatchOf(AlarmsAt(timeoutNs, Inputs(rec), i))
  }

  /** Recordings of live runs are honest. */
  lemma LiveIsHonest(limits: Limits, timeoutNs: u64, acts: seq<Action<Feed>>, firstId: u64)
    requires Numbered(firstId, |Trace(limits, timeoutNs, acts).log|)
    ensures Honest(timeoutNs, RecordingOf(firstId, Trace(limits, timeoutNs, acts).log))
  {
    var cfg := WatchdogService(limits, timeoutNs);
    var rec := RecordingOf(firstId, Run(cfg, acts).log);
    forall i | 0 <= i < |rec| ensures rec[i].output == BatchOf(AlarmsAt(timeoutNs, Inputs(rec), i)) {
      LogIsReplayed(cfg, acts, firstId, i);
      BatchStepOutput(cfg.step, cfg.init, Inputs(rec), i);
    }
  }

  predicate ArmsAt(rec: AlarmLog, i: int) {
    0 <= i < |rec| && Alarm.Armed in ValuesOf(rec[i].output)
  }

  /** The first record whose batch holds `Armed`. */
  ghost predicate FirstArmed(rec: AlarmLog, a: int) {
    ArmsAt(rec, a) && forall j | 0 <= j < a :: !ArmsAt(rec, j)
  }

  /** Finds that record and clears its feeds; a recording that never armed cannot be perturbed. */
  method Perturb(rec: AlarmLog) returns (perturbed: Option<AlarmLog>, at: nat)
    ensures perturbed.None? <==> forall i | 0 <= i < |rec| :: !ArmsAt(rec, i)
    ensures perturbed.Some? ==> FirstArmed(rec, at) && perturbed.value == Cleared(rec, at)
  {
    at := 0;
    while at < |rec|
      invariant 0 <= at <= |rec|
      invariant forall j | 0 <= j < at :: !ArmsAt(rec, j)
    {
      if Alarm.Armed in ValuesOf(rec[at].output) {
        var armed := rec[at];
        perturbed := Some(rec[at := armed.(input := armed.input.(events := []))]);
        assert FirstArmed(rec, at);
        return;
      }
      at := at + 1;
    }
    perturbed := None;
  }

  /** The recording with the feeds of record `a` gone. */
  function Cleared(rec: AlarmLog, a: nat): AlarmLog
    requires a < |rec|
  {
    rec[a := rec[a].(input := rec[a].input.(events := []))]
  }

  /** Record `b` is the first after `a` that carries feeds. */
  ghost predicate NextFed(cs: Cycles, a: int, b: int) {
    0 <= a < b && FedAt(cs, b) && forall j | a < j < b :: !FedAt(cs, j)
  }

  /** The first arming record is the first fed cycle. */
  lemma ArmedIsFirstFed(timeoutNs: u64, rec: AlarmLog, a: nat)
    requires Honest(timeoutNs, rec) && FirstArmed(rec, a)
    ensures FedAt(Inputs(rec), a) && NeverFed(Inputs(rec)[..a])
    ensures AlarmsAt(timeoutNs, Inputs(rec), a) == [Alarm.Armed]
  {
    AlarmsRefineHistory(timeoutNs, Inputs(rec), a);
    assert AlarmsAt(timeoutNs, Inputs(rec), a)[0] == Alarm.Armed;
  }

  /** A watchdog that was never fed is cold. */
  lemma UnfedIsCold(timeoutNs: u64, cs: Cycles)
    requires NeverFed(cs)
    ensures After(timeoutNs, cs) == Cold(timeoutNs)
  {
    StateRefinesHistory(timeoutNs, cs);
  }

  /** Once both have drained a feed in the same cycle, the two histories have the same state. */
  lemma {:induction false} BackTogether(timeoutNs: u64, cs: Cycles, ds: Cycles, b: nat, i: nat)
    requires |cs| == |ds| && b < i <= |cs| && FedAt(cs, b)
    requires forall j | b <= j < |cs| :: cs[j] == ds[j]
    ensures After(timeoutNs, cs[..i]) == After(timeoutNs, ds[..i])
    decreases i
  {
    StateAfterPrefix(OnCycle<Feed>, Cold(timeoutNs), cs, i - 1);
    StateAfterPrefix(OnCycle<Feed>, Cold(timeoutNs), ds, i - 1);
    if i - 1 == b {
      StateRefinesHistory(timeoutNs, cs[..b]);
      StateRefinesHistory(timeoutNs, ds[..b]);
    } else {
      BackTogether(timeoutNs, cs, ds, b, i - 1);
    }
  }

  /** The cycles with the feeds of cycle `a` gone. */
  function Silenced(cs: Cycles, a: nat): Cycles
    requires a < |cs|
  {
    cs[a := cs[a].(events := [])]
  }

  /** Until the next feed the perturbed watchdog stays cold. */
  lemma PerturbedStaysCold(timeoutNs: u64, cs: Cycles, a: nat, i: nat)
    requires FedAt(cs, a) && NeverFed(cs[..a]) && i <= |cs|
    requires forall j | a < j < i :: !FedAt(cs, j)
    ensures After(timeoutNs, Silenced(cs, a)[..i]) == Cold(timeoutNs)
  {
    var past := Silenced(cs, a)[..i];
    forall j | 0 <= j < i ensures !FedAt(past, j) {
      if j < a { assert !FedAt(cs[..a], j); }
      if j > a { assert !FedAt(cs, j); }
    }
    UnfedIsCold(timeoutNs, past);
  }

  /** Meanwhile the recorded watchdog is armed, or tripped by an earlier overdue cycle. */
  lemma RecordedIsArmed(timeoutNs: u64, cs: Cycles, a: nat, i: nat)
    requires FedAt(cs, a) && a < i <= |cs|
    requires forall j | a < j < i :: !FedAt(cs, j)
    ensures var w := After(timeoutNs, cs[..i]);
      && w.timeoutNs == timeoutNs && w.lastFeedNs == Some(cs[a].nowNs)
      && !w.state.Idle?
      && (w.state.Tripped? <==> exists k :: k < i && Overdue(timeoutNs, cs, a, k))
  {
    var past := cs[..i];
    StateRefinesHistory(timeoutNs, past);
    assert FedAt(past, a);
    forall j | a < j < i ensures !FedAt(past, j) { assert !FedAt(cs, j); }
    assert LastFed(past, a);
    assert forall k | k < i :: Overdue(timeoutNs, past, a, k) == Overdue(timeoutNs, cs, a, k);
  }

  /** Where the perturbed replay must diverge. */
  ghost predicate Damaged(timeoutNs: u64, cs: Cycles, a: int, i: int) {
    || i == a
    || NextFed(cs, a, i)
    || (FirstOverdue(timeoutNs, cs, a, i) && forall b | a < b <= i :: !FedAt(cs, b))
  }

  /** Up to the cleared cycle. */
  lemma DamageAtFirst(timeoutNs: u64, cs: Cycles, a: nat, i: nat)
    requires FedAt(cs, a) && NeverFed(cs[..a]) && i <= a
    ensures AlarmsAt(timeoutNs, Silenced(cs, a), i) == []
    ensures AlarmsAt(timeoutNs, cs, i) == if i < a then [] else [Alarm.Armed]
  {
    PerturbedStaysCold(timeoutNs, cs, a, i);
    assert cs[..i] == Silenced(cs, a)[..i];
    if i < a { assert !FedAt(cs[..a], i); }
  }

  /** After it, as long as no feed has come in between. */
  lemma DamageMeanwhile(timeoutNs: u64, cs: Cycles, a: nat, i: nat)
    requires FedAt(cs, a) && NeverFed(cs[..a]) && a < i < |cs|
    requires forall j | a < j < i :: !FedAt(cs, j)
    ensures AlarmsAt(timeoutNs, Silenced(cs, a), i) != AlarmsAt(timeoutNs, cs, i) <==> Damaged(timeoutNs, cs, a, i)
  {
    PerturbedStaysCold(timeoutNs, cs, a, i);
    RecordedIsArmed(timeoutNs, cs, a, i);
    assert NextFed(cs, a, i) <==> FedAt(cs, i);
  }

  /** After the next feed, nothing. */
  lemma DamageAfter(timeoutNs: u64, cs: Cycles, a: nat, b: nat, i: nat)
    requires FedAt(cs, a) && NextFed(cs, a, b) && b < i < |cs|
    ensures AlarmsAt(timeoutNs, Silenced(cs, a), i) == AlarmsAt(timeoutNs, cs, i)
    ensures !Damaged(timeoutNs, cs, a, i)
  {
    BackTogether(timeoutNs, cs, Silenced(cs, a), b, i);
  }

  lemma {:induction false} FirstFedAfter(cs: Cycles, a: nat, i: nat) returns (b: nat)
    requires a < i && FedAt(cs, i)
    ensures b <= i && NextFed(cs, a, b)
    decreases i
  {
    if j :| a < j < i && FedAt(cs, j) {
      b := FirstFedAfter(cs, a, j);
    } else {
      b := i;
    }
  }

  lemma AlarmsDiffer(timeoutNs: u64, cs: Cycles, a: nat, i: nat)
    requires FedAt(cs, a) && NeverFed(cs[..a]) && i < |cs|
    ensures AlarmsAt(timeoutNs, Silenced(cs, a), i) != AlarmsAt(timeoutNs, cs, i) <==> Damaged(timeoutNs, cs, a, i)
  {
    if i <= a {
      DamageAtFirst(timeoutNs, cs, a, i);
    } else if j :| a < j < i && FedAt(cs, j) {
      var b := FirstFedAfter(cs, a, j);
      DamageAfter(timeoutNs, cs, a, b, i);
    } else {
      DamageMeanwhile(timeoutNs, cs, a, i);
    }
  }

  /**
   The perturbed replay diverges exactly at the cleared record, at the first trip before the next
   feed if there is one, and at the next feed if there is one.
   */
  lemma ControlDivergesExactly<E>(timeoutNs: u64, rec: AlarmLog, encode: Option<Batch<Alarm>> -> Option<E>,
                                  a: nat, i: nat)
    requires Honest(timeoutNs, rec) && FirstArmed(rec, a) && InjectiveEncoding(encode) && i < |rec|
    ensures DivergesAt(WatchdogGate(timeoutNs, encode), Cleared(rec, a), i) <==> Damaged(timeoutNs, Inputs(rec), a, i)
  {
    var cs := Inputs(rec);
    ArmedIsFirstFed(timeoutNs, rec, a);
    AlarmsDiffer(timeoutNs, cs, a, i);
    ControlReplays(timeoutNs, rec, encode, a, i);
    SameBatch(AlarmsAt(timeoutNs, Silenced(cs, a), i), AlarmsAt(timeoutNs, cs, i));
  }

  /** What the gate replays is the silenced history. */
  lemma ControlReplays<E>(timeoutNs: u64, rec: AlarmLog, encode: Option<Batch<Alarm>> -> Option<E>, a: nat, i: nat)
    requires a < |rec| && i < |rec|
    ensures ReplayedAt(WatchdogGate(timeoutNs, encode), Cleared(rec, a), i) ==
      BatchOf(AlarmsAt(timeoutNs, Silenced(Inputs(rec), a), i))
  {
    assert Inputs(Cleared(rec, a)) == Silenced(Inputs(rec), a);
    BatchStepOutput<Model, Feed, Alarm>(OnCycle, Cold(timeoutNs), Silenced(Inputs(rec), a), i);
  }

  lemma SameBatch<T>(x: seq<T>, y: seq<T>)
    ensures BatchOf(x) == BatchOf(y) <==> x == y
  {
    assert ValuesOf(BatchOf(x)) == x && ValuesOf(BatchOf(y)) == y;
  }

  /**
   What a report on the perturbed recording says: it fails, its first divergence is the cleared record
   itself, recorded as arming and replayed as silent, and at most two more records diverge.
   */
  predicate Exposes(rec: AlarmLog, a: nat, report: GateReport<Cycle<Feed>, Option<Batch<Alarm>>>)
    requires a < |rec|
  {
    && !report.Passed()
    && report.firstDivergence ==
         Some(Divergence(rec[a].id, rec[a].input.(events := []), Some(Batch([Alarm.Armed])), None))
    && 1 <= report.divergent <= 3
  }

  /** The negative control is never vacuous, and its damage is bounded. */
  lemma NegativeControlFails<E>(timeoutNs: u64, rec: AlarmLog, encode: Option<Batch<Alarm>> -> Option<E>, a: nat)
    requires Honest(timeoutNs, rec) && FirstArmed(rec, a) && InjectiveEncoding(encode)
    ensures forall report | IsReport(WatchdogGate(timeoutNs, encode), Cleared(rec, a), report) ::
      Exposes(rec, a, report)
  {
    var g, bad := WatchdogGate(timeoutNs, encode), Cleared(rec, a);
    forall i | 0 <= i < |rec| ensures DivergesAt(g, bad, i) <==> Damaged(timeoutNs, Inputs(rec), a, i) {
      ControlDivergesExactly(timeoutNs, rec, encode, a, i);
    }
    AtMostThree(timeoutNs, Inputs(rec), a, DivergentBefore(g, bad, |bad|));
    forall report | IsReport(g, bad, report) ensures Exposes(rec, a, report) {
      ReportExposes(timeoutNs, rec, encode, a, report.firstDivergence);
    }
  }

  /** The damage ends with the next feed: no record after it diverges. */
  lemma ControlHeals<E>(timeoutNs: u64, rec: AlarmLog, encode: Option<Batch<Alarm>> -> Option<E>,
                        a: nat, b: nat, i: nat)
    requires Honest(timeoutNs, rec) && FirstArmed(rec, a) && InjectiveEncoding(encode)
    requires NextFed(Inputs(rec), a, b) && b < i < |rec|
    ensures !DivergesAt(WatchdogGate(timeoutNs, encode), Cleared(rec, a), i)
  {
    ControlDivergesExactly(timeoutNs, rec, encode, a, i);
    ArmedIsFirstFed(timeoutNs, rec, a);
    DamageAfter(timeoutNs, Inputs(rec), a, b, i);
  }

  /** The first divergence of the control. */
  lemma ReportExposes<E>(timeoutNs: u64, rec: AlarmLog, encode: Option<Batch<Alarm>> -> Option<E>, a: nat,
                         first: Option<Divergence<Cycle<Feed>, Option<Batch<Alarm>>>>)
    requires Honest(timeoutNs, rec) && FirstArmed(rec, a)
    requires FirstOk(WatchdogGate(timeoutNs, encode), Cleared(rec, a), |rec|, first)
    requires forall i | 0 <= i <= a :: DivergesAt(WatchdogGate(timeoutNs, encode), Cleared(rec, a), i) <==> i == a
    ensures first == Some(Divergence(rec[a].id, rec[a].input.(events := []), Some(Batch([Alarm.Armed])), None))
  {
    FirstIsCleared(WatchdogGate(timeoutNs, encode), Cleared(rec, a), a, first);
    ArmedIsFirstFed(timeoutNs, rec, a);
    ControlReplays(timeoutNs, rec, encode, a, a);
    DamageAtFirst(timeoutNs, Inputs(rec), a, a);
  }

  /** If record `a` diverges and none before it does, it is the one reported. */
  lemma FirstIsCleared<S, I, O, E>(g: Gate<S, I, O, E>, rec: Recording<I, O>, a: nat, first: Option<Divergence<I, O>>)
    requires a < |rec| && FirstOk(g, rec, |rec|, first)
    requires DivergesAt(g, rec, a) && forall j | 0 <= j < a :: !DivergesAt(g, rec, j)
    ensures first == Some(Divergence(rec[a].id, rec[a].input, rec[a].output, ReplayedAt(g, rec, a)))
  {
  }

  lemma NextFedUnique(cs: Cycles, a: int, i: int, j: int)
    requires NextFed(cs, a, i) && NextFed(cs, a, j)
    ensures i == j
  {
  }

  lemma FirstOverdueUnique(timeoutNs: u64, cs: Cycles, a: int, i: int, j: int)
    requires FirstOverdue(timeoutNs, cs, a, i) && FirstOverdue(timeoutNs, cs, a, j)
    ensures i == j
  {
  }

  lemma OneAndTwoMore<T>(x: T, ys: set<T>, zs: set<T>)
    requires |ys| <= 1 && |zs| <= 1
    ensures 1 <= |{x} + ys + zs| <= 3
  {
    assert x in {x} + ys + zs;
  }

  /** Damage has at most three places. */
  lemma AtMostThree(timeoutNs: u64, cs: Cycles, a: nat, s: set<int>)
    requires forall i :: i in s ==> Damaged(timeoutNs, cs, a, i)
    requires a in s
    ensures 1 <= |s| <= 3
  {
    var trips := set i | i in s && FirstOverdue(timeoutNs, cs, a, i);
    var feeds := set i | i in s && NextFed(cs, a, i);
    forall i, j | i in trips && j in trips ensures i == j { FirstOverdueUnique(timeoutNs, cs, a, i, j); }
    forall i, j | i in feeds && j in feeds ensures i == j { NextFedUnique(cs, a, i, j); }
    AtMostOne(trips);
    AtMostOne(feeds);
    OneAndTwoMore(a, trips, feeds);
    assert s == {a} + trips + feeds by {
      forall i | i in s ensures i in {a} + trips + feeds { assert Damaged(timeoutNs, cs, a, i); }
    }
  }

  lemma AtMostOne<T>(s: set<T>)
    requires forall i, j | i in s && j in s :: i == j
    ensures |s| <= 1
  {
    if i :| i in s {
      assert s == {i};
    } else {
      assert s == {};
    }
  }

  lemma UnfedNeverArms(timeoutNs: u64, cs: Cycles, j: nat)
    requires j < |cs| && !FedAt(cs, j)
    ensures Alarm.Armed !in AlarmsAt(timeoutNs, cs, j)
  {
  }

  /** A history with a fed cycle has a first one, and it arms. */
  lemma {:induction false} FirstFedArms(timeoutNs: u64, rec: AlarmLog, i: nat) returns (a: nat)
    requires Honest(timeoutNs, rec) && FedAt(Inputs(rec), i)
    ensures a <= i && FirstArmed(rec, a)
    decreases i
  {
    var cs := Inputs(rec);
    if j :| 0 <= j < i && FedAt(cs, j) {
      a := FirstFedArms(timeoutNs, rec, j);
    } else {
      a := i;
      forall j | 0 <= j < i ensures !FedAt(cs[..i], j) { assert !FedAt(cs, j); }
      AlarmsRefineHistory(timeoutNs, cs, i);
      forall j | 0 <= j < i ensures !ArmsAt(rec, j) {
        assert !FedAt(cs, j);
        UnfedNeverArms(timeoutNs, cs, j);
      }
    }
  }

  /**
   For every run of the service with a fed cycle in its log, there is a record to clear, and the gate fails
   on what results.
   */
  lemma LiveControlFails<E>(limits: Limits, timeoutNs: u64, acts: seq<Action<Feed>>, firstId: u64,
                            encode: Option<Batch<Alarm>> -> Option<E>, i: nat) returns (a: nat)
    requires Numbered(firstId, |Trace(limits, timeoutNs, acts).log|) && InjectiveEncoding(encode)
    requires FedAt(Inputs(RecordingOf(firstId, Trace(limits, timeoutNs, acts).log)), i)
    ensures var rec := RecordingOf(firstId, Trace(limits, timeoutNs, acts).log);
      && FirstArmed(rec, a)
      && forall report | IsReport(WatchdogGate(timeoutNs, encode), Cleared(rec, a), report) ::
           Exposes(rec, a, report)
  {
    var rec := RecordingOf(firstId, Trace(limits, timeoutNs, acts).log);
    LiveIsHonest(limits, timeoutNs, acts, firstId);
    a := FirstFedArms(timeoutNs, rec, i);
    NegativeControlFails(timeoutNs, rec, encode, a);
  }
}
