/**
 What every run of the one-message pipeline delivers: which message goes into which slot, when a slot
 is stamped, what a machine is told, and why a run stops.
 */
module SingleDelivery {

  import opened Basics
  import opened Channels
  import opened Messages
  import opened FsmAdapters
  import opened SinglePipeline

  /** One action more, after some others. */
  lemma LiveMore<S, In, Out>(su: Setup<S, In, Out>, acts: seq<Action<In>>, more: seq<Action<In>>)
    requires |more| > 0
    ensures Live(su, acts + more) == Do(su, Live(su, acts + more[..|more| - 1]), more[|more| - 1])
  {
    assert acts + more == (acts + more[..|more| - 1]) + [more[|more| - 1]];
    LiveSnoc(su, acts + more[..|more| - 1], more[|more| - 1]);
  }

  /** The slot of the unfinished iteration, once it is stamped. */
  function SlotInHand<In, Out>(stage: Progress<In, Out>): Option<Slot<In>> {
    match stage
    case Ready => None
    case Pulled(_) => None
    case Filled(slot) => Some(slot)
    case Answered(slot, _) => Some(slot)
    case Stopped(slot) => Some(slot)
  }

  // ---------------------------------------------------------------------------
  // Which message goes where
  // ---------------------------------------------------------------------------

  /** The payload of the unfinished iteration, once it is pulled. */
  function PayloadInHand<In, Out>(stage: Progress<In, Out>): Option<In>
    requires !stage.Ready?
  {
    match stage
    case Pulled(payload) => payload
    case Filled(slot) => slot.payload
    case Answered(slot, _) => slot.payload
    case Stopped(slot) => slot.payload
  }

  /** Since `n` slots were logged, the messages `waiting` then have been served first, one an iteration. */
  ghost predicate Serves<S, In, Out>(n: nat, waiting: seq<In>, p: Single<S, In, Out>) {
    var d := |p.slots| - n;
    && d >= 0
    && (forall j | 0 <= j < d && j < |waiting| :: p.slots[n + j].payload == Some(waiting[j]))
    && (d < |waiting| && p.stage.Ready? ==> waiting[d..] <= p.queue)
    && (d < |waiting| && !p.stage.Ready? ==>
          PayloadInHand(p.stage) == Some(waiting[d]) && waiting[d + 1..] <= p.queue)
  }

  lemma TakesFirst<S, In, Out>(su: Setup<S, In, Out>, n: nat, waiting: seq<In>, p: Single<S, In, Out>)
    requires Serves(n, waiting, p) && p.stage.Ready?
    ensures Serves(n, waiting, Iteration(su, p))
  {
    var d := |p.slots| - n;
    if d < |waiting| {
      assert waiting[d..][0] == waiting[d] == p.queue[0];
      assert waiting[d..][1..] == waiting[d + 1..];
    }
  }

  lemma KeepsOnServing<S, In, Out>(su: Setup<S, In, Out>, n: nat, waiting: seq<In>, p: Single<S, In, Out>)
    requires Serves(n, waiting, p) && !p.stage.Ready?
    ensures Serves(n, waiting, Iteration(su, p))
  {
  }

  lemma OthersLetServe<S, In, Out>(su: Setup<S, In, Out>, n: nat, waiting: seq<In>, p: Single<S, In, Out>,
                                   a: Action<In>)
    requires Serves(n, waiting, p) && !a.Iterate?
    ensures Serves(n, waiting, Do(su, p, a))
  {
  }

  lemma ServesStep<S, In, Out>(su: Setup<S, In, Out>, n: nat, waiting: seq<In>, p: Single<S, In, Out>, a: Action<In>)
    requires Serves(n, waiting, p)
    ensures Serves(n, waiting, Do(su, p, a))
  {
    if !a.Iterate? {
      OthersLetServe(su, n, waiting, p, a);
    } else if p.stage.Ready? {
      TakesFirst(su, n, waiting, p);
    } else {
      KeepsOnServing(su, n, waiting, p);
    }
  }

  lemma {:induction false} ServesAll<S, In, Out>(su: Setup<S, In, Out>, acts: seq<Action<In>>, more: seq<Action<In>>)
    requires Live(su, acts).stage.Ready?
    ensures Serves(|Live(su, acts).slots|, Live(su, acts).queue, Live(su, acts + more))
    decreases |more|
  {
    var x := Live(su, acts);
    if |more| == 0 {
      assert acts + more == acts;
    } else {
      ServesAll(su, acts, more[..|more| - 1]);
      LiveMore(su, acts, more);
      ServesStep(su, |x.slots|, x.queue, Live(su, acts + more[..|more| - 1]), more[|more| - 1]);
    }
  }

  /**
   Bounded wait: between iterations, the message with `i` ahead of it in the queue is the payload of the
   slot that is logged `i` iterations later, whatever else is sent meanwhile.
   */
  lemma WaitsItsTurn<S, In, Out>(su: Setup<S, In, Out>, acts: seq<Action<In>>, more: seq<Action<In>>, i: nat)
    requires Live(su, acts).stage.Ready? && i < |Live(su, acts).queue|
    requires |Live(su, acts + more).slots| > |Live(su, acts).slots| + i
    ensures Live(su, acts + more).slots[|Live(su, acts).slots| + i].payload == Some(Live(su, acts).queue[i])
  {
    ServesAll(su, acts, more);
  }

  /** `y` has everything that `x` has, and perhaps more. */
  ghost predicate Extends<S, In, Out>(x: Single<S, In, Out>, y: Single<S, In, Out>) {
    && x.slots <= y.slots && x.payloads <= y.payloads
    && x.sent <= y.sent && x.outbound <= y.outbound && x.clock <= y.clock
  }

  lemma ExtendsStep<S, In, Out>(su: Setup<S, In, Out>, p: Single<S, In, Out>, a: Action<In>)
    ensures Extends(p, Do(su, p, a))
  {
  }

  lemma ExtendsFurther<S, In, Out>(x: Single<S, In, Out>, y: Single<S, In, Out>, z: Single<S, In, Out>)
    requires Extends(x, y) && Extends(y, z)
    ensures Extends(x, z)
  {
  }

  /** Nothing in a run's history is ever rewritten. */
  lemma {:induction false} HistoryStays<S, In, Out>(su: Setup<S, In, Out>, acts: seq<Action<In>>, more: seq<Action<In>>)
    ensures Extends(Live(su, acts), Live(su, acts + more))
    decreases |more|
  {
    if |more| == 0 {
      assert acts + more == acts;
    } else {
      var y := Live(su, acts + more[..|more| - 1]);
      HistoryStays(su, acts, more[..|more| - 1]);
      LiveMore(su, acts, more);
      ExtendsStep(su, y, more[|more| - 1]);
      ExtendsFurther(Live(su, acts), y, Live(su, acts + more));
    }
  }

  /**
   An empty slot: at any moment between iterations before it was pulled, everything sent so far had been
   taken by the slots before it.
   */
  lemma EmptySlotMissesNothing<S, In, Out>(su: Setup<S, In, Out>, acts: seq<Action<In>>, more: seq<Action<In>>)
    requires Live(su, acts).stage.Ready? && |Live(su, acts + more).slots| > |Live(su, acts).slots|
    requires Live(su, acts + more).slots[|Live(su, acts).slots|].payload.None?
    ensures Live(su, acts).queue == [] && MessagesIn(Live(su, acts).slots) == Live(su, acts).sent
  {
    var x := Live(su, acts);
    if |x.queue| > 0 { WaitsItsTurn(su, acts, more, 0); }
    LiveKept(su, acts);
    assert x.sent == MessagesIn(x.slots) + [] + [];
  }

  /** Slots that all hold messages hold one each. */
  lemma {:induction false} FullSlots<T>(slots: seq<Slot<T>>, n: nat, m: nat)
    requires n <= m <= |slots| && forall k | n <= k < m :: slots[k].payload.Some?
    ensures |MessagesIn(slots[..m])| == |MessagesIn(slots[..n])| + m - n
    decreases m
  {
    if n < m {
      FullSlots(slots, n, m - 1);
      assert slots[..m] == slots[..m - 1] + [slots[m - 1]];
      MessagesSnoc(slots[..m - 1], slots[m - 1]);
    }
  }

  lemma {:induction false} MessagesGrow<T>(slots: seq<Slot<T>>, n: nat)
    requires n <= |slots|
    ensures |MessagesIn(slots[..n])| <= |MessagesIn(slots)|
    decreases |slots|
  {
    if n < |slots| {
      MessagesGrow(slots[..|slots| - 1], n);
      assert slots[..|slots| - 1][..n] == slots[..n];
    } else {
      assert slots[..n] == slots;
    }
  }

  /** The messages in `slots` when those of the first `n` are `n` slots' and the next `w` slots are full. */
  lemma CountTaken<T>(slots: seq<Slot<T>>, n: nat, w: nat)
    requires n + w <= |slots| && forall k | n <= k < n + w :: slots[k].payload.Some?
    ensures |MessagesIn(slots)| >= |MessagesIn(slots[..n])| + w
  {
    FullSlots(slots, n, n + w);
    MessagesGrow(slots, n + w);
  }

  /** Two prefixes of the same sequence: the shorter is a prefix of the longer. */
  lemma ShorterPrefix<T>(early: seq<T>, taken: seq<T>, all: seq<T>)
    requires early <= all && taken <= all && |early| <= |taken|
    ensures early <= taken
  {
  }

  /** What is logged comes first in what was sent, and is all of it but what is in hand or queued. */
  lemma LoggedFirst<S, In, Out>(su: Setup<S, In, Out>, p: Single<S, In, Out>)
    requires QueueKept(su, p)
    ensures MessagesIn(p.slots) <= p.sent
    ensures p.stage.Ready? ==> |MessagesIn(p.slots)| + |p.queue| == |p.sent|
  {
    assert p.sent == MessagesIn(p.slots) + (InHand(p.stage) + p.queue);
  }

  lemma FullSince<S, In, Out>(n: nat, waiting: seq<In>, p: Single<S, In, Out>)
    requires Serves(n, waiting, p) && |p.slots| >= n + |waiting|
    ensures forall k | n <= k < n + |waiting| :: p.slots[k].payload.Some?
  {
    forall k | n <= k < n + |waiting| ensures p.slots[k].payload.Some? {
      assert p.slots[n + (k - n)].payload == Some(waiting[k - n]);
    }
  }

  /** Once as many iterations have finished as messages were waiting, all that had been sent is in the log. */
  lemma AllTaken<S, In, Out>(su: Setup<S, In, Out>, acts: seq<Action<In>>, more: seq<Action<In>>)
    requires Live(su, acts).stage.Ready?
    requires |Live(su, acts + more).slots| >= |Live(su, acts).slots| + |Live(su, acts).queue|
    ensures Live(su, acts).sent <= MessagesIn(Live(su, acts + more).slots)
  {
    var x, y := Live(su, acts), Live(su, acts + more);
    ServesAll(su, acts, more);
    HistoryStays(su, acts, more);
    LiveKept(su, acts);
    LiveKept(su, acts + more);
    LoggedFirst(su, x);
    LoggedFirst(su, y);
    FullSince(|x.slots|, x.queue, y);
    CountTaken(y.slots, |x.slots|, |x.queue|);
    assert y.slots[..|x.slots|] == x.slots;
    ShorterPrefix(x.sent, MessagesIn(y.slots), y.sent);
  }

  // ---------------------------------------------------------------------------
  // When a slot is stamped
  // ---------------------------------------------------------------------------

  predicate TimedBetween<T>(low: u64, slot: Slot<T>, high: u64) {
    slot.tov.Time? && low <= slot.tov.ns <= high
  }

  /** The slots since the first `n` are stamped no earlier than `low`, and none is stamped ahead of the clock. */
  ghost predicate StampedSince<S, In, Out>(n: nat, low: u64, p: Single<S, In, Out>) {
    && n <= |p.slots| && low <= p.clock
    && (forall k | n <= k < |p.slots| :: TimedBetween(low, p.slots[k], p.clock))
    && (SlotInHand(p.stage).Some? ==> TimedBetween(low, SlotInHand(p.stage).value, p.clock))
  }

  lemma StampedStep<S, In, Out>(su: Setup<S, In, Out>, n: nat, low: u64, p: Single<S, In, Out>, a: Action<In>)
    requires StampedSince(n, low, p)
    ensures StampedSince(n, low, Do(su, p, a))
  {
  }

  /**
   From any moment before a slot is stamped, its pull included, to any moment after: the stamp lies between
   the two readings of the clock.
   */
  lemma {:induction false} StampedInTime<S, In, Out>(su: Setup<S, In, Out>, acts: seq<Action<In>>,
                                                     more: seq<Action<In>>)
    requires Live(su, acts).stage.Ready? || Live(su, acts).stage.Pulled?
    ensures StampedSince(|Live(su, acts).slots|, Live(su, acts).clock, Live(su, acts + more))
    decreases |more|
  {
    var x := Live(su, acts);
    if |more| == 0 {
      assert acts + more == acts;
    } else {
      StampedInTime(su, acts, more[..|more| - 1]);
      LiveMore(su, acts, more);
      StampedStep(su, |x.slots|, x.clock, Live(su, acts + more[..|more| - 1]), more[|more| - 1]);
    }
  }

  /** Stamps in the order of the slots, the one in hand last. */
  ghost predicate StampsOrdered<S, In, Out>(p: Single<S, In, Out>) {
    && StampedSince(0, 0, p)
    && (forall i, j | 0 <= i <= j < |p.slots| :: p.slots[i].tov.ns <= p.slots[j].tov.ns)
    && (SlotInHand(p.stage).Some? ==>
          forall i | 0 <= i < |p.slots| :: p.slots[i].tov.ns <= SlotInHand(p.stage).value.tov.ns)
  }

  lemma OrderedStep<S, In, Out>(su: Setup<S, In, Out>, p: Single<S, In, Out>, a: Action<In>)
    requires StampsOrdered(p)
    ensures StampsOrdered(Do(su, p, a))
  {
    StampedStep(su, 0, 0, p, a);
  }

  /** The stamps of a run never decrease. */
  lemma {:induction false} StampsIncrease<S, In, Out>(su: Setup<S, In, Out>, acts: seq<Action<In>>)
    ensures StampsOrdered(Live(su, acts))
    decreases |acts|
  {
    if |acts| > 0 {
      StampsIncrease(su, acts[..|acts| - 1]);
      OrderedStep(su, Live(su, acts[..|acts| - 1]), acts[|acts| - 1]);
    }
  }

  // ---------------------------------------------------------------------------
  // What a machine is told
  // ---------------------------------------------------------------------------

  /** A machine that remembers every trigger and says nothing. */
  function Remember<In>(seen: seq<Trigger<In>>, t: Trigger<In>): (seq<Trigger<In>>, seq<bool>) {
    (seen + [t], [])
  }

  function Listener<In>(capacity: Option<nat>): Setup<seq<Trigger<In>>, In, bool> {
    Setup(capacity, [], Remember)
  }

  lemma {:induction false} Remembers<In>(ts: seq<Trigger<In>>)
    ensures RunTask<seq<Trigger<In>>, In, bool>(Remember, [], ts).fault.None?
    ensures RunTask<seq<Trigger<In>>, In, bool>(Remember, [], ts).state == ts
    decreases |ts|
  {
    if |ts| > 0 {
      Remembers(ts[..|ts| - 1]);
      assert ts == ts[..|ts| - 1] + [ts[|ts| - 1]];
    }
  }

  /** Slot by slot, the machine was told the message, or the time the slot was given. */
  ghost predicate ToldOf<T>(seen: seq<Trigger<T>>, slots: seq<Slot<T>>) {
    && |seen| == |slots|
    && forall i | 0 <= i < |slots| ::
         if slots[i].payload.Some? then seen[i] == Message(slots[i].payload.value)
         else slots[i].tov.Time? && seen[i] == Tick(slots[i].tov.ns)
  }

  /** In every run, a machine sees exactly the messages and, for the empty slots, their recorded times. */
  lemma ToldTheRecordedTimes<In>(capacity: Option<nat>, acts: seq<Action<In>>)
    ensures var p := Live(Listener<In>(capacity), acts);
      p.stage.Ready? ==> ToldOf(p.state, p.slots)
  {
    var su := Listener<In>(capacity);
    LiveKept(su, acts);
    Remembers(LoggedTriggers(Live(su, acts).slots));
  }

  /** And so does its replay, whatever clock it is given. */
  lemma ReplayToldTheSame<In>(slots: seq<Slot<In>>, nows: nat -> u64)
    requires AllTimed(slots)
    ensures ToldOf(RunTask<seq<Trigger<In>>, In, bool>(Remember, [], TriggersOf(slots, nows)).state, slots)
  {
    Remembers(TriggersOf(slots, nows));
  }

  // ---------------------------------------------------------------------------
  // Why a run stops
  // ---------------------------------------------------------------------------

  lemma {:induction false} Disconnects<S, In, Out>(su: Setup<S, In, Out>, acts: seq<Action<In>>)
    ensures Live(su, acts).connected <==> HangUp !in acts
    decreases |acts|
  {
    if |acts| > 0 {
      Disconnects(su, acts[..|acts| - 1]);
      assert acts == acts[..|acts| - 1] + [acts[|acts| - 1]];
    }
  }

  /**
   A run stops for one of two reasons: the transport has hung up and there was an output to send, or the
   machine emitted more than once.
   */
  lemma StopsForCause<S, In, Out>(su: Setup<S, In, Out>, acts: seq<Action<In>>)
    requires Live(su, acts).stage.Stopped?
    ensures (HangUp in acts && |LastAnswer(su, Live(su, acts))| == 1) || |LastAnswer(su, Live(su, acts))| > 1
  {
    LiveKept(su, acts);
    Disconnects(su, acts);
  }

  /** And then for good. */
  lemma {:induction false} StopsForGood<S, In, Out>(su: Setup<S, In, Out>, acts: seq<Action<In>>, more: seq<Action<In>>)
    requires Live(su, acts).stage.Stopped?
    ensures var x, y := Live(su, acts), Live(su, acts + more);
      y.stage == x.stage && y.slots == x.slots && y.outbound == x.outbound && y.state == x.state
    decreases |more|
  {
    if |more| == 0 {
      assert acts + more == acts;
    } else {
      StopsForGood(su, acts, more[..|more| - 1]);
      LiveMore(su, acts, more);
    }
  }
}
