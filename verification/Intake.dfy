/**
 The inbound side as an interleaved transition system: a driver thread that may enqueue a message
 at any moment, a clock that may move on at any moment, and a source task that drains the queue
 in separate atomic steps (pull one message, give up on an empty queue, measure the backlog, read
 the clock).

 A state also remembers what happened: every message ever sent with the time it was enqueued,
 and one `Turn` for each completed cycle.
 */
module Intake {

  import opened Basics
  import opened Channels
  import opened Messages

  /** A message and the time it entered the queue. */
  datatype Sent<+T> = Sent(msg: T, at: u64)

  /** A moment: the clock, and how many messages had been sent by then. */
  datatype Mark = Mark(at: u64, sent: nat)

  /**
   One cycle with its circumstances: the position of its first message among all messages sent,
   the drained messages, when the drain began, when it saw an empty queue (if it did), and when
   the backlog was measured.
   */
  datatype Turn<+T> =
    Turn(cycle: Cycle<T>, first: nat, batch: seq<Sent<T>>, began: Mark, empty: Option<Mark>, counted: Mark)
  {
    /** The position just after the last drained message. */
    function Next(): nat { first + |batch| }
  }

  /** Where the source task is within its cycle. */
  datatype Phase<+T> =
    | Between
    | Draining(first: nat, batch: seq<Sent<T>>, began: Mark)
    | Drained(first: nat, batch: seq<Sent<T>>, began: Mark, empty: Option<Mark>)
    | Measured(first: nat, batch: seq<Sent<T>>, began: Mark, empty: Option<Mark>, counted: Mark, pending: nat)
    | Stamped(turn: Turn<T>)

  datatype Line<T> =
    Line(clock: u64, queue: seq<Sent<T>>, sent: seq<Sent<T>>, phase: Phase<T>, turns: seq<Turn<T>>)

  /** An unbounded queue has no capacity; a batch holds at least one message. */
  datatype Limits = Limits(capacity: Option<nat>, maxBatch: nat) {
    predicate Valid() {
      maxBatch > 0 && (capacity.Some? ==> capacity.value > 0)
    }

    predicate Admits(queued: nat) {
      HasRoom(capacity, queued)
    }
  }

  function Msgs<T>(batch: seq<Sent<T>>): (ms: seq<T>)
    ensures |ms| == |batch|
    ensures forall j | 0 <= j < |batch| :: ms[j] == batch[j].msg
  {
    seq(|batch|, j requires 0 <= j < |batch| => batch[j].msg)
  }

  function CyclesOf<T>(turns: seq<Turn<T>>): (cs: seq<Cycle<T>>)
    ensures |cs| == |turns|
    ensures forall k | 0 <= k < |turns| :: cs[k] == turns[k].cycle
  {
    seq(|turns|, k requires 0 <= k < |turns| => turns[k].cycle)
  }

  /** The position after everything the turns drained. */
  function Taken<T>(turns: seq<Turn<T>>): nat {
    if |turns| == 0 then 0 else turns[|turns| - 1].Next()
  }

  function Empty<T>(): Line<T> {
    Line(0, [], [], Between, [])
  }

  function Now<T>(x: Line<T>): Mark {
    Mark(x.clock, |x.sent|)
  }

  /** The driver enqueues a message, or stays blocked when the queue is full. */
  function Enqueue<T>(lim: Limits, x: Line<T>, msg: T): Line<T> {
    if lim.Admits(|x.queue|) then
      x.(queue := x.queue + [Sent(msg, x.clock)], sent := x.sent + [Sent(msg, x.clock)])
    else x
  }

  /** The clock never goes backwards. */
  function Elapse<T>(x: Line<T>, now: u64): Line<T> {
    if x.clock <= now then x.(clock := now) else x
  }

  /** The next atomic step of a drain. A stamped cycle waits to be handed over. */
  function Pull<T>(lim: Limits, x: Line<T>): Line<T> {
    match x.phase
    case Between =>
      x.(phase := Draining(Taken(x.turns), [], Now(x)))
    case Draining(first, batch, began) =>
      if |batch| == lim.maxBatch then
        x.(phase := Drained(first, batch, began, None))
      else if |x.queue| == 0 then
        x.(phase := Drained(first, batch, began, Some(Now(x))))
      else
        x.(queue := x.queue[1..], phase := Draining(first, batch + [x.queue[0]], began))
    case Drained(first, batch, began, empty) =>
      x.(phase := Measured(first, batch, began, empty, Now(x), |x.queue|))
    case Measured(first, batch, began, empty, counted, pending) =>
      x.(phase := Stamped(Turn(Cycle(x.clock, Msgs(batch), pending), first, batch, began, empty, counted)))
    case Stamped(_) => x
  }

  /** The finished cycle moves on; the source task is free for the next one. */
  function HandOver<T>(x: Line<T>): Line<T>
    requires x.phase.Stamped?
  {
    x.(turns := x.turns + [x.phase.turn], phase := Between)
  }

  // ---------------------------------------------------------------------------
  // Invariants
  // ---------------------------------------------------------------------------

  /** A past moment: what was sent by then is no younger, what was sent since is no older. */
  ghost predicate MarkOk<T>(sent: seq<Sent<T>>, clock: u64, m: Mark) {
    && m.sent <= |sent| && m.at <= clock
    && (forall j | 0 <= j < m.sent :: sent[j].at <= m.at)
    && (forall j | m.sent <= j < |sent| :: m.at <= sent[j].at)
  }

  predicate Precedes(a: Mark, b: Mark) {
    a.at <= b.at && a.sent <= b.sent
  }

  /** A drained batch is a stretch of the messages sent. */
  ghost predicate BatchOk<T>(sent: seq<Sent<T>>, first: nat, batch: seq<Sent<T>>) {
    first + |batch| <= |sent| && batch == sent[first..first + |batch|]
  }

  /** A drain ends either at the cap, or at a queue it has seen empty, and not otherwise. */
  ghost predicate DrainOk<T>(sent: seq<Sent<T>>, clock: u64, maxBatch: nat,
                             first: nat, batch: seq<Sent<T>>, began: Mark, empty: Option<Mark>) {
    && BatchOk(sent, first, batch)
    && MarkOk(sent, clock, began)
    && |batch| <= maxBatch
    && (empty.None? <==> |batch| == maxBatch)
    && (empty.Some? ==>
         && MarkOk(sent, clock, empty.value)
         && empty.value.sent == first + |batch|
         && Precedes(began, empty.value))
  }

  /** The backlog is what was sent by the time of counting, less what was drained. */
  ghost predicate CountOk<T>(sent: seq<Sent<T>>, clock: u64, next: nat,
                             began: Mark, empty: Option<Mark>, counted: Mark, pending: nat) {
    && MarkOk(sent, clock, counted)
    && Precedes(began, counted)
    && (empty.Some? ==> Precedes(empty.value, counted))
    && next <= counted.sent
    && pending == counted.sent - next
  }

  ghost predicate TurnOk<T>(sent: seq<Sent<T>>, clock: u64, maxBatch: nat, t: Turn<T>) {
    && DrainOk(sent, clock, maxBatch, t.first, t.batch, t.began, t.empty)
    && CountOk(sent, clock, t.Next(), t.began, t.empty, t.counted, t.cycle.pending)
    && t.cycle.events == Msgs(t.batch)
    && t.counted.at <= t.cycle.nowNs <= clock
  }

  /** A drain begun at `began` from position `first` comes after turn `t` and misses nothing. */
  ghost predicate Follows<T>(t: Turn<T>, first: nat, began: Mark) {
    t.Next() == first && t.cycle.nowNs <= began.at && t.counted.sent <= began.sent
  }

  ghost predicate Starts<T>(turns: seq<Turn<T>>, first: nat, began: Mark) {
    && first == Taken(turns)
    && (|turns| > 0 ==> Follows(turns[|turns| - 1], first, began))
  }

  /** Turns follow each other from the first message on. */
  ghost predicate ChainOk<T>(turns: seq<Turn<T>>) {
    && (|turns| > 0 ==> turns[0].first == 0)
    && (forall k | 0 < k < |turns| :: Follows(turns[k - 1], turns[k].first, turns[k].began))
  }

  ghost predicate TurnsOk<T>(sent: seq<Sent<T>>, clock: u64, maxBatch: nat, turns: seq<Turn<T>>) {
    forall k | 0 <= k < |turns| :: TurnOk(sent, clock, maxBatch, turns[k])
  }

  /** The messages the unfinished cycle holds. */
  function InHand<T>(ph: Phase<T>): seq<Sent<T>> {
    match ph
    case Between => []
    case Draining(_, batch, _) => batch
    case Drained(_, batch, _, _) => batch
    case Measured(_, batch, _, _, _, _) => batch
    case Stamped(turn) => turn.batch
  }

  ghost predicate PhaseOk<T>(sent: seq<Sent<T>>, clock: u64, maxBatch: nat, ph: Phase<T>) {
    match ph
    case Between => true
    case Draining(first, batch, began) =>
      BatchOk(sent, first, batch) && MarkOk(sent, clock, began) && |batch| <= maxBatch
    case Drained(first, batch, began, empty) =>
      DrainOk(sent, clock, maxBatch, first, batch, began, empty)
    case Measured(first, batch, began, empty, counted, pending) =>
      && DrainOk(sent, clock, maxBatch, first, batch, began, empty)
      && CountOk(sent, clock, first + |batch|, began, empty, counted, pending)
    case Stamped(turn) =>
      TurnOk(sent, clock, maxBatch, turn)
  }

  /** The drain in progress begins where the completed turns stopped. */
  ghost predicate PhaseStarts<T>(turns: seq<Turn<T>>, ph: Phase<T>) {
    match ph
    case Between => true
    case Draining(first, _, began) => Starts(turns, first, began)
    case Drained(first, _, began, _) => Starts(turns, first, began)
    case Measured(first, _, began, _, _, _) => Starts(turns, first, began)
    case Stamped(turn) => Starts(turns, turn.first, turn.began)
  }

  /** The queue is the tail of what was sent, in order: nothing is lost and nothing is invented. */
  ghost predicate QueueOk<T>(lim: Limits, queue: seq<Sent<T>>, sent: seq<Sent<T>>, taken: nat) {
    && taken + |queue| == |sent|
    && queue == sent[taken..]
    && (lim.capacity.Some? ==> |queue| <= lim.capacity.value)
  }

  /** No message comes from the future. */
  ghost predicate TimesOk<T>(sent: seq<Sent<T>>, clock: u64) {
    forall j | 0 <= j < |sent| :: sent[j].at <= clock
  }

  ghost predicate Inv<T>(lim: Limits, x: Line<T>) {
    && TimesOk(x.sent, x.clock)
    && QueueOk(lim, x.queue, x.sent, Taken(x.turns) + |InHand(x.phase)|)
    && TurnsOk(x.sent, x.clock, lim.maxBatch, x.turns)
    && ChainOk(x.turns)
    && PhaseOk(x.sent, x.clock, lim.maxBatch, x.phase)
    && PhaseStarts(x.turns, x.phase)
  }

  /** Time passes and messages arrive; what has happened stays as it was. */
  ghost predicate Grows<T>(sent: seq<Sent<T>>, clock: u64, sent': seq<Sent<T>>, clock': u64) {
    && clock <= clock' && sent <= sent'
    && forall j | |sent| <= j < |sent'| :: clock <= sent'[j].at
  }

  lemma MarkStays<T>(sent: seq<Sent<T>>, clock: u64, sent': seq<Sent<T>>, clock': u64, m: Mark)
    requires Grows(sent, clock, sent', clock') && MarkOk(sent, clock, m)
    ensures MarkOk(sent', clock', m)
  {
    assert forall j | 0 <= j < |sent| :: sent'[j] == sent[j];
  }

  lemma DrainStays<T>(sent: seq<Sent<T>>, clock: u64, sent': seq<Sent<T>>, clock': u64, maxBatch: nat,
                      first: nat, batch: seq<Sent<T>>, began: Mark, empty: Option<Mark>)
    requires Grows(sent, clock, sent', clock')
    requires DrainOk(sent, clock, maxBatch, first, batch, began, empty)
    ensures DrainOk(sent', clock', maxBatch, first, batch, began, empty)
  {
    MarkStays(sent, clock, sent', clock', began);
    if empty.Some? { MarkStays(sent, clock, sent', clock', empty.value); }
    assert BatchOk(sent', first, batch);
  }

  lemma TurnStays<T>(sent: seq<Sent<T>>, clock: u64, sent': seq<Sent<T>>, clock': u64, maxBatch: nat, t: Turn<T>)
    requires Grows(sent, clock, sent', clock') && TurnOk(sent, clock, maxBatch, t)
    ensures TurnOk(sent', clock', maxBatch, t)
  {
    DrainStays(sent, clock, sent', clock', maxBatch, t.first, t.batch, t.began, t.empty);
    MarkStays(sent, clock, sent', clock', t.counted);
  }

  lemma PhaseStays<T>(sent: seq<Sent<T>>, clock: u64, sent': seq<Sent<T>>, clock': u64, maxBatch: nat, ph: Phase<T>)
    requires Grows(sent, clock, sent', clock') && PhaseOk(sent, clock, maxBatch, ph)
    ensures PhaseOk(sent', clock', maxBatch, ph)
  {
    match ph
    case Between =>
    case Draining(first, batch, began) =>
      MarkStays(sent, clock, sent', clock', began);
      assert BatchOk(sent', first, batch);
    case Drained(first, batch, began, empty) =>
      DrainStays(sent, clock, sent', clock', maxBatch, first, batch, began, empty);
    case Measured(first, batch, began, empty, counted, _) =>
      DrainStays(sent, clock, sent', clock', maxBatch, first, batch, began, empty);
      MarkStays(sent, clock, sent', clock', counted);
    case Stamped(turn) =>
      TurnStays(sent, clock, sent', clock', maxBatch, turn);
  }

  lemma HistoryStays<T>(sent: seq<Sent<T>>, clock: u64, sent': seq<Sent<T>>, clock': u64, maxBatch: nat,
                        turns: seq<Turn<T>>, ph: Phase<T>)
    requires Grows(sent, clock, sent', clock')
    requires TurnsOk(sent, clock, maxBatch, turns) && PhaseOk(sent, clock, maxBatch, ph)
    ensures TurnsOk(sent', clock', maxBatch, turns) && PhaseOk(sent', clock', maxBatch, ph)
  {
    forall k | 0 <= k < |turns| ensures TurnOk(sent', clock', maxBatch, turns[k]) {
      TurnStays(sent, clock, sent', clock', maxBatch, turns[k]);
    }
    PhaseStays(sent, clock, sent', clock', maxBatch, ph);
  }

  lemma EmptyInv<T>(lim: Limits)
    ensures Inv(lim, Empty<T>())
  {
  }

  lemma TimesSnoc<T>(sent: seq<Sent<T>>, clock: u64, msg: T)
    requires TimesOk(sent, clock)
    ensures TimesOk(sent + [Sent(msg, clock)], clock)
    ensures Grows(sent, clock, sent + [Sent(msg, clock)], clock)
  {
  }

  lemma QueueSnoc<T>(lim: Limits, queue: seq<Sent<T>>, sent: seq<Sent<T>>, taken: nat, m: Sent<T>)
    requires QueueOk(lim, queue, sent, taken) && lim.Admits(|queue|)
    ensures QueueOk(lim, queue + [m], sent + [m], taken)
  {
  }

  lemma EnqueueInv<T>(lim: Limits, x: Line<T>, msg: T)
    requires Inv(lim, x)
    ensures Inv(lim, Enqueue(lim, x, msg))
  {
    if lim.Admits(|x.queue|) {
      var m := Sent(msg, x.clock);
      TimesSnoc(x.sent, x.clock, msg);
      QueueSnoc(lim, x.queue, x.sent, Taken(x.turns) + |InHand(x.phase)|, m);
      HistoryStays(x.sent, x.clock, x.sent + [m], x.clock, lim.maxBatch, x.turns, x.phase);
      InvHolds(lim, x.clock, x.queue + [m], x.sent + [m], x.phase, x.turns);
    }
  }

  /** The invariant, from its parts. */
  lemma InvHolds<T>(lim: Limits, clock: u64, queue: seq<Sent<T>>, sent: seq<Sent<T>>, ph: Phase<T>, turns: seq<Turn<T>>)
    requires TimesOk(sent, clock) && QueueOk(lim, queue, sent, Taken(turns) + |InHand(ph)|)
    requires TurnsOk(sent, clock, lim.maxBatch, turns) && ChainOk(turns)
    requires PhaseOk(sent, clock, lim.maxBatch, ph) && PhaseStarts(turns, ph)
    ensures Inv(lim, Line(clock, queue, sent, ph, turns))
  {
  }

  lemma ElapseInv<T>(lim: Limits, x: Line<T>, now: u64)
    requires Inv(lim, x)
    ensures Inv(lim, Elapse(x, now))
  {
    if x.clock <= now {
      HistoryStays(x.sent, x.clock, x.sent, now, lim.maxBatch, x.turns, x.phase);
      InvHolds(lim, now, x.queue, x.sent, x.phase, x.turns);
    }
  }

  /** The present moment is a past moment from now on, and comes after every turn. */
  lemma NowOk<T>(lim: Limits, x: Line<T>)
    requires Inv(lim, x)
    ensures MarkOk(x.sent, x.clock, Now(x))
    ensures x.phase.Between? ==> Starts(x.turns, Taken(x.turns), Now(x))
  {
    if |x.turns| > 0 {
      assert TurnOk(x.sent, x.clock, lim.maxBatch, x.turns[|x.turns| - 1]);
    }
  }

  lemma TakeOne<T>(lim: Limits, queue: seq<Sent<T>>, sent: seq<Sent<T>>, first: nat, batch: seq<Sent<T>>)
    requires QueueOk(lim, queue, sent, first + |batch|) && BatchOk(sent, first, batch)
    requires |queue| > 0
    ensures QueueOk(lim, queue[1..], sent, first + |batch| + 1)
    ensures BatchOk(sent, first, batch + [queue[0]])
  {
    assert queue[0] == sent[first + |batch|];
  }

  lemma PullOneInv<T>(lim: Limits, x: Line<T>)
    requires Inv(lim, x) && x.phase.Draining?
    requires |x.phase.batch| != lim.maxBatch && |x.queue| > 0
    ensures Inv(lim, Pull(lim, x))
  {
    TakeOne(lim, x.queue, x.sent, x.phase.first, x.phase.batch);
    InvHolds(lim, x.clock, x.queue[1..], x.sent, Pull(lim, x).phase, x.turns);
  }

  lemma PullStopInv<T>(lim: Limits, x: Line<T>)
    requires Inv(lim, x) && x.phase.Draining?
    requires |x.phase.batch| == lim.maxBatch || |x.queue| == 0
    ensures Inv(lim, Pull(lim, x))
  {
    NowOk(lim, x);
    InvHolds(lim, x.clock, x.queue, x.sent, Pull(lim, x).phase, x.turns);
  }

  lemma PullMarkInv<T>(lim: Limits, x: Line<T>)
    requires Inv(lim, x) && (x.phase.Between? || x.phase.Drained?)
    ensures Inv(lim, Pull(lim, x))
  {
    NowOk(lim, x);
    InvHolds(lim, x.clock, x.queue, x.sent, Pull(lim, x).phase, x.turns);
  }

  lemma PullStampInv<T>(lim: Limits, x: Line<T>)
    requires Inv(lim, x) && x.phase.Measured?
    ensures Inv(lim, Pull(lim, x))
  {
    InvHolds(lim, x.clock, x.queue, x.sent, Pull(lim, x).phase, x.turns);
  }

  lemma PullInv<T>(lim: Limits, x: Line<T>)
    requires Inv(lim, x)
    ensures Inv(lim, Pull(lim, x))
  {
    match x.phase
    case Draining(_, batch, _) =>
      if |batch| == lim.maxBatch || |x.queue| == 0 { PullStopInv(lim, x); } else { PullOneInv(lim, x); }
    case Measured(_, _, _, _, _, _) => PullStampInv(lim, x);
    case Stamped(_) =>
    case _ => PullMarkInv(lim, x);
  }

  /** A finished turn joins the chain that it follows. */
  lemma TurnsSnoc<T>(sent: seq<Sent<T>>, clock: u64, maxBatch: nat, turns: seq<Turn<T>>, t: Turn<T>)
    requires TurnsOk(sent, clock, maxBatch, turns) && ChainOk(turns)
    requires TurnOk(sent, clock, maxBatch, t) && Starts(turns, t.first, t.began)
    ensures TurnsOk(sent, clock, maxBatch, turns + [t]) && ChainOk(turns + [t])
    ensures Taken(turns + [t]) == Taken(turns) + |t.batch|
  {
    var all := turns + [t];
    forall k | 0 < k < |all| ensures Follows(all[k - 1], all[k].first, all[k].began) {
      if k < |turns| { assert Follows(turns[k - 1], turns[k].first, turns[k].began); }
    }
  }

  lemma HandOverInv<T>(lim: Limits, x: Line<T>)
    requires Inv(lim, x) && x.phase.Stamped?
    ensures Inv(lim, HandOver(x))
  {
    TurnsSnoc(x.sent, x.clock, lim.maxBatch, x.turns, x.phase.turn);
    InvHolds(lim, x.clock, x.queue, x.sent, Between, x.turns + [x.phase.turn]);
  }
}
