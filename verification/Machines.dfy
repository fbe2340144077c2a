/**
 Deterministic step machines. A machine is a function from a state and an input to a
 new state and an output; this is all that `FsmSpec::step` is once the effects buffer it
 writes to is read as its result.
 */
module Machines {

  import opened Basics

  type StepOf<!S, !I, !O> = (S, I) -> (S, O)

  /** The state after the machine has consumed `ins`, starting cold in `s`. */
  function StateAfter<S, I, O>(step: StepOf<S, I, O>, s: S, ins: seq<I>): S {
    if |ins| == 0 then s
    else step(StateAfter(step, s, ins[..|ins| - 1]), ins[|ins| - 1]).0
  }

  /** What the machine answers to the input at index `i` of `ins`. */
  function OutputAt<S, I, O>(step: StepOf<S, I, O>, s: S, ins: seq<I>, i: nat): O
    requires i < |ins|
  {
    step(StateAfter(step, s, ins[..i]), ins[i]).1
  }

  lemma StateAfterSnoc<S, I, O>(step: StepOf<S, I, O>, s: S, ins: seq<I>, x: I)
    ensures StateAfter(step, s, ins + [x]) == step(StateAfter(step, s, ins), x).0
  {
    assert (ins + [x])[..|ins|] == ins;
  }

  lemma StateAfterPrefix<S, I, O>(step: StepOf<S, I, O>, s: S, ins: seq<I>, i: nat)
    requires i < |ins|
    ensures StateAfter(step, s, ins[..i + 1]) == step(StateAfter(step, s, ins[..i]), ins[i]).0
  {
    assert ins[..i + 1] == ins[..i] + [ins[i]];
    StateAfterSnoc(step, s, ins[..i], ins[i]);
  }

  /** Running over a concatenation is running over the parts in turn. */
  lemma {:induction false} StateAfterAppend<S, I, O>(step: StepOf<S, I, O>, s: S, xs: seq<I>, ys: seq<I>)
    ensures StateAfter(step, s, xs + ys) == StateAfter(step, StateAfter(step, s, xs), ys)
    decreases |ys|
  {
    if |ys| == 0 {
      assert xs + ys == xs;
    } else {
      var front, last := ys[..|ys| - 1], ys[|ys| - 1];
      StateAfterAppend(step, s, xs, front);
      assert xs + ys == xs + front + [last];
      StateAfterSnoc(step, s, xs + front, last);
    }
  }

  lemma OutputAtAppend<S, I, O>(step: StepOf<S, I, O>, s: S, xs: seq<I>, ys: seq<I>, i: nat)
    requires i < |ys|
    ensures OutputAt(step, s, xs + ys, |xs| + i) == OutputAt(step, StateAfter(step, s, xs), ys, i)
  {
    AppendBeyond(xs, ys, i);
    StateAfterAppend(step, s, xs, ys[..i]);
  }

  /** Every answer of a run, in order. */
  function Answers<S, I, O>(step: StepOf<S, I, O>, s: S, ins: seq<I>): (os: seq<O>)
    ensures |os| == |ins|
    ensures forall k | 0 <= k < |ins| :: os[k] == OutputAt(step, s, ins, k)
  {
    seq(|ins|, k requires 0 <= k < |ins| => OutputAt(step, s, ins, k))
  }

  lemma AnswersSnoc<S, I, O>(step: StepOf<S, I, O>, s: S, ins: seq<I>, x: I)
    ensures Answers(step, s, ins + [x]) == Answers(step, s, ins) + [step(StateAfter(step, s, ins), x).1]
  {
    var all := ins + [x];
    forall k | 0 <= k < |ins| ensures OutputAt(step, s, all, k) == OutputAt(step, s, ins, k) {
      assert all[..k] == ins[..k];
    }
    assert all[..|ins|] == ins;
  }
}
