/**
 What the iterating thread shares with the other threads: the two channels and the clock. A `Link`
 holds them in place. Its schedule is arbitrary and says what the others do before each atomic step
 of this thread, so that every interleaving is some schedule.
 */
module Channels {

  import opened Basics

  /** One atomic step of a run: three kinds that other threads take, and this thread's own. */
  datatype Action<+T> = Send(msg: T) | Clock(now: u64) | HangUp | Iterate

  type Schedule<!T> = nat -> seq<Action<T>>

  /** An unbounded channel has no capacity. */
  predicate HasRoom(capacity: Option<nat>, queued: nat) {
    capacity.Some? ==> queued < capacity.value
  }

  datatype Shared<T> = Shared(queue: seq<T>, clock: u64, connected: bool)

  /** What an action does to what is shared; a send into a full channel has not happened yet. */
  function Disturb<T>(capacity: Option<nat>, v: Shared<T>, a: Action<T>): Shared<T> {
    match a
    case Send(msg) => if HasRoom(capacity, |v.queue|) then v.(queue := v.queue + [msg]) else v
    case Clock(now) => if v.clock <= now then v.(clock := now) else v
    case HangUp => v.(connected := false)
    case Iterate => v
  }

  function DisturbAll<T>(capacity: Option<nat>, v: Shared<T>, acts: seq<Action<T>>): Shared<T> {
    if |acts| == 0 then v
    else Disturb(capacity, DisturbAll(capacity, v, acts[..|acts| - 1]), acts[|acts| - 1])
  }

  /** Whatever others do, messages only join at the end, the clock does not go back, and a hang-up stays. */
  lemma {:induction false} DisturbGrows<T>(capacity: Option<nat>, v: Shared<T>, acts: seq<Action<T>>)
    ensures var w := DisturbAll(capacity, v, acts);
      && v.queue <= w.queue && v.clock <= w.clock && (w.connected <==> v.connected && HangUp !in acts)
    decreases |acts|
  {
    if |acts| > 0 {
      DisturbGrows(capacity, v, acts[..|acts| - 1]);
      assert acts == acts[..|acts| - 1] + [acts[|acts| - 1]];
    }
  }

  /** The first message of a queue, if there is one, and what it leaves behind. */
  function Head<T>(queue: seq<T>): Option<T> {
    if |queue| == 0 then None else Some(queue[0])
  }

  function Tail<T>(queue: seq<T>): seq<T> {
    if |queue| == 0 then [] else queue[1..]
  }

  /** The actions that are not the iterating thread's own. */
  function Foreign<T>(acts: seq<Action<T>>): (fs: seq<Action<T>>)
    ensures forall i | 0 <= i < |fs| :: !fs[i].Iterate?
  {
    if |acts| == 0 then []
    else
      var last := acts[|acts| - 1];
      Foreign(acts[..|acts| - 1]) + if last.Iterate? then [] else [last]
  }

  lemma ForeignSnoc<T>(acts: seq<Action<T>>, a: Action<T>)
    ensures Foreign(acts + [a]) == Foreign(acts) + if a.Iterate? then [] else [a]
  {
    assert (acts + [a])[..|acts|] == acts;
  }

  /** This thread's own steps leave alone what is shared. */
  lemma ForeignDisturbs<T>(capacity: Option<nat>, v: Shared<T>, acts: seq<Action<T>>, a: Action<T>)
    ensures DisturbAll(capacity, v, Foreign(acts + [a])) == Disturb(capacity, DisturbAll(capacity, v, Foreign(acts)), a)
  {
    ForeignSnoc(acts, a);
    var fs := Foreign(acts);
    assert fs + [] == fs && (fs + [a])[..|fs|] == fs;
  }

  /** Foreign actions join the foreign part as they are. */
  lemma {:induction false} ForeignAppend<T>(acts: seq<Action<T>>, more: seq<Action<T>>)
    requires forall i | 0 <= i < |more| :: !more[i].Iterate?
    ensures Foreign(acts + more) == Foreign(acts) + more
    decreases |more|
  {
    if |more| == 0 {
      assert acts + more == acts;
    } else {
      var front, last := more[..|more| - 1], more[|more| - 1];
      ForeignAppend(acts, front);
      assert acts + more == (acts + front) + [last];
      ForeignSnoc(acts + front, last);
    }
  }

  /** What the others have done after `n` turns of the schedule. */
  function Scheduled<T>(schedule: Schedule<T>, n: nat): seq<Action<T>> {
    if n == 0 then [] else Scheduled(schedule, n - 1) + Foreign(schedule(n - 1))
  }

  /** A run interleaves the iterating thread's steps with the first `n` turns of the schedule. */
  ghost predicate Obeys<T>(acts: seq<Action<T>>, schedule: Schedule<T>, n: nat) {
    Foreign(acts) == Scheduled(schedule, n)
  }

  lemma {:induction false} ForeignHas<T>(acts: seq<Action<T>>, a: Action<T>)
    requires !a.Iterate?
    ensures a in Foreign(acts) <==> a in acts
    decreases |acts|
  {
    if |acts| > 0 {
      ForeignHas(acts[..|acts| - 1], a);
      assert acts == acts[..|acts| - 1] + [acts[|acts| - 1]];
    }
  }

  lemma {:induction false} ScheduledHas<T>(schedule: Schedule<T>, n: nat, a: Action<T>)
    requires a in Scheduled(schedule, n)
    ensures exists k: nat :: a in schedule(k)
  {
    if a in Foreign(schedule(n - 1)) {
      ForeignHas(schedule(n - 1), a);
    } else {
      ScheduledHas(schedule, n - 1, a);
    }
  }

  /** A run that hangs up does so because its schedule says so. */
  lemma HangUpIsScheduled<T>(acts: seq<Action<T>>, schedule: Schedule<T>, n: nat)
    requires Obeys(acts, schedule, n) && HangUp in acts
    ensures exists k: nat :: HangUp in schedule(k)
  {
    ForeignHas(acts, HangUp);
    ScheduledHas(schedule, n, HangUp);
  }

  /** The receiving end of the inbound channel. */
  class Inbox<T> {
    var queue: seq<T>

    constructor ()
      ensures queue == []
    {
      queue := [];
    }

    method TryRecv() returns (m: Option<T>)
      modifies this
      ensures |old(queue)| == 0 ==> m == None && queue == []
      ensures |old(queue)| > 0 ==> m == Some(old(queue)[0]) && queue == old(queue)[1..]
    {
      if |queue| == 0 {
        m := None;
      } else {
        m := Some(queue[0]);
        queue := queue[1..];
      }
    }
  }

  /** The sending end of the outbound channel: what it has accepted, and whether anyone is there. */
  class Outbox<T> {
    var accepted: seq<T>
    var connected: bool

    constructor ()
      ensures accepted == [] && connected
    {
      accepted := [];
      connected := true;
    }

    method Send(v: T) returns (ok: bool)
      modifies this`accepted
      ensures ok == connected
      ensures accepted == if ok then old(accepted) + [v] else old(accepted)
    {
      if connected { accepted := accepted + [v]; }
      ok := connected;
    }
  }

  class Link<T, Out> {
    const capacity: Option<nat>
    const schedule: Schedule<T>
    const rx: Inbox<T>
    const tx: Outbox<Out>
    var clock: u64
    var at: nat

    constructor (capacity: Option<nat>, schedule: Schedule<T>)
      ensures View() == Shared([], 0, true) && tx.accepted == [] && at == 0
      ensures fresh(rx) && fresh(tx)
      ensures this.capacity == capacity && this.schedule == schedule
    {
      this.capacity := capacity;
      this.schedule := schedule;
      rx := new Inbox<T>();
      tx := new Outbox<Out>();
      clock, at := 0, 0;
    }

    ghost function View(): Shared<T>
      reads this, rx, tx
    {
      Shared(rx.queue, clock, tx.connected)
    }

    /** What is shared once the others have taken their next turn. */
    ghost function NextView(): Shared<T>
      reads this, rx, tx
    {
      DisturbAll(capacity, View(), Foreign(schedule(at)))
    }

    /** One action of another thread; only this one takes iterate steps. */
    method Other(a: Action<T>)
      modifies this`clock, rx, tx`connected
      ensures View() == Disturb(capacity, old(View()), a)
    {
      match a
      case Send(msg) =>
        if HasRoom(capacity, |rx.queue|) { rx.queue := rx.queue + [msg]; }
      case Clock(now) =>
        if clock <= now { clock := now; }
      case HangUp =>
        tx.connected := false;
      case Iterate =>
    }

    /** One action after the other; this thread's own are not among them. */
    method TakeTurn(next: seq<Action<T>>) returns (ghost acts: seq<Action<T>>)
      modifies this`clock, rx, tx`connected
      ensures acts == Foreign(next) && View() == DisturbAll(capacity, old(View()), acts)
    {
      ghost var before := View();
      for i := 0 to |next|
        invariant View() == DisturbAll(capacity, before, Foreign(next[..i]))
      {
        Other(next[i]);
        assert next[..i + 1] == next[..i] + [next[i]];
        ForeignDisturbs(capacity, before, next[..i], next[i]);
      }
      acts := Foreign(next);
      assert next[..|next|] == next;
    }

    /** What the other threads do before the next atomic step of this one. */
    method Others() returns (ghost acts: seq<Action<T>>)
      modifies this, rx, tx`connected
      ensures acts == Foreign(schedule(old(at))) && at == old(at) + 1
      ensures View() == DisturbAll(capacity, old(View()), acts) == old(NextView())
      ensures old(rx.queue) <= rx.queue && old(clock) <= clock
    {
      acts := TakeTurn(schedule(at));
      at := at + 1;
      DisturbGrows(capacity, old(View()), acts);
    }
  }
}
