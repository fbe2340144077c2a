/**
 The replay gate: a recording is run through a cold machine and every output is compared, as an
 encoding, with the recorded one. An output that cannot be encoded has no encoding, and two such
 outputs compare as equal.
 */
module Replay {

  import opened Basics
  import opened Machines

  datatype Recorded<+I, +O> = Recorded(id: u64, input: I, output: O)

  datatype Divergence<+I, +O> = Divergence(id: u64, input: I, recorded: O, replayed: O)

  datatype GateReport<+I, +O> = GateReport(
    steps: nat,
    divergent: nat,
    firstDivergence: Option<Divergence<I, O>>,
    idGaps: seq<(u64, u64)>)
  {
    predicate Passed() {
      steps > 0 && divergent == 0 && |idGaps| == 0
    }
  }

  /** What a gate is told: the machine, its cold state and how outputs are encoded. */
  datatype Gate<!S, !I, !O, !E> = Gate(step: StepOf<S, I, O>, cold: S, encode: O -> Option<E>)

  type Recording<I, O> = seq<Recorded<I, O>>

  function Inputs<I, O>(rec: Recording<I, O>): (ins: seq<I>)
    ensures |ins| == |rec|
    ensures forall i | 0 <= i < |rec| :: ins[i] == rec[i].input
  {
    seq(|rec|, i requires 0 <= i < |rec| => rec[i].input)
  }

  /** What a cold machine answers to the input of record `i`, having seen all the earlier ones. */
  function ReplayedAt<S, I, O, E>(g: Gate<S, I, O, E>, rec: Recording<I, O>, i: nat): O
    requires i < |rec|
  {
    OutputAt(g.step, g.cold, Inputs(rec), i)
  }

  predicate DivergesAt<S, I, O, E(==)>(g: Gate<S, I, O, E>, rec: Recording<I, O>, i: nat)
    requires i < |rec|
  {
    g.encode(ReplayedAt(g, rec, i)) != g.encode(rec[i].output)
  }

  /** The records before `n` whose replayed output differs. */
  function DivergentBefore<S, I, O, E(==)>(g: Gate<S, I, O, E>, rec: Recording<I, O>, n: nat): set<int>
    requires n <= |rec|
  {
    set i | 0 <= i < n && DivergesAt(g, rec, i)
  }

  predicate GapAt<I, O>(rec: Recording<I, O>, i: int) {
    0 < i < |rec| && rec[i].id != WrappingSucc(rec[i - 1].id)
  }

  /** The positions before `n` whose identifier does not succeed the one before, in order. */
  function GapPositions<I, O>(rec: Recording<I, O>, n: nat): seq<nat>
    requires n <= |rec|
  {
    if n == 0 then []
    else GapPositions(rec, n - 1) + if GapAt(rec, n - 1) then [n - 1] else []
  }

  /** They are exactly the gaps, each once, in increasing order. */
  lemma {:induction false} GapPositionsExact<I, O>(rec: Recording<I, O>, n: nat)
    requires n <= |rec|
    ensures forall i :: i in GapPositions(rec, n) <==> i < n && GapAt(rec, i)
    ensures forall j, k | 0 <= j < k < |GapPositions(rec, n)| :: GapPositions(rec, n)[j] < GapPositions(rec, n)[k]
  {
    if n > 0 {
      GapPositionsExact(rec, n - 1);
      var front := GapPositions(rec, n - 1);
      forall j | 0 <= j < |front| ensures front[j] < n - 1 {
        assert front[j] in front;
      }
    }
  }

  /** The first divergence among the first `n` records, if there is one. */
  ghost predicate FirstOk<S, I, O, E>(g: Gate<S, I, O, E>, rec: Recording<I, O>, n: nat,
                                      first: Option<Divergence<I, O>>)
    requires n <= |rec|
  {
    match first
    case None => forall i | 0 <= i < n :: !DivergesAt(g, rec, i)
    case Some(d) => exists i ::
      && 0 <= i < n && DivergesAt(g, rec, i)
      && (forall j | 0 <= j < i :: !DivergesAt(g, rec, j))
      && d == Divergence(rec[i].id, rec[i].input, rec[i].output, ReplayedAt(g, rec, i))
  }

  /** The identifiers on both sides of every gap before `n`, in order. */
  function GapPairs<I, O>(rec: Recording<I, O>, n: nat): seq<(u64, u64)>
    requires n <= |rec|
  {
    if n == 0 then []
    else GapPairs(rec, n - 1) + if GapAt(rec, n - 1) then [(rec[n - 2].id, rec[n - 1].id)] else []
  }

  /** One pair for each gap position. */
  lemma {:induction false} GapPairsExact<I, O>(rec: Recording<I, O>, n: nat)
    requires n <= |rec|
    ensures |GapPairs(rec, n)| == |GapPositions(rec, n)|
    ensures forall k | 0 <= k < |GapPairs(rec, n)| ::
      var at := GapPositions(rec, n)[k];
      GapAt(rec, at) && GapPairs(rec, n)[k] == (rec[at - 1].id, rec[at].id)
  {
    if n > 0 { GapPairsExact(rec, n - 1); }
  }

  /** What a report must say about a recording. */
  ghost predicate IsReport<S, I, O, E>(g: Gate<S, I, O, E>, rec: Recording<I, O>, r: GateReport<I, O>) {
    && r.steps == |rec|
    && r.divergent == |DivergentBefore(g, rec, |rec|)|
    && FirstOk(g, rec, |rec|, r.firstDivergence)
    && r.idGaps == GapPairs(rec, |rec|)
  }

  /** With overflow checks on, `p + 1` fails on the largest identifier, unless it is the last one. */
  predicate Overflows<I, O>(rec: Recording<I, O>, overflowChecks: bool) {
    overflowChecks && exists i | 0 <= i < |rec| - 1 :: rec[i].id == MAX_U64
  }

  /** Divergent records counted one by one. */
  function Tally<S, I, O, E(==)>(g: Gate<S, I, O, E>, rec: Recording<I, O>, n: nat): nat
    requires n <= |rec|
  {
    if n == 0 then 0 else Tally(g, rec, n - 1) + if DivergesAt(g, rec, n - 1) then 1 else 0
  }

  lemma {:induction false} TallyIsCardinality<S, I, O, E>(g: Gate<S, I, O, E>, rec: Recording<I, O>, n: nat)
    requires n <= |rec|
    ensures Tally(g, rec, n) == |DivergentBefore(g, rec, n)|
  {
    if n > 0 {
      TallyIsCardinality(g, rec, n - 1);
      assert DivergentBefore(g, rec, n) ==
        DivergentBefore(g, rec, n - 1) + if DivergesAt(g, rec, n - 1) then {n - 1} else {};
    }
  }

  /** The first divergence found when looking at the records one by one. */
  function FirstFound<S, I, O, E(==)>(g: Gate<S, I, O, E>, rec: Recording<I, O>, n: nat): Option<Divergence<I, O>>
    requires n <= |rec|
  {
    if n == 0 then None
    else if FirstFound(g, rec, n - 1).Some? then FirstFound(g, rec, n - 1)
    else if DivergesAt(g, rec, n - 1) then
      Some(Divergence(rec[n - 1].id, rec[n - 1].input, rec[n - 1].output, ReplayedAt(g, rec, n - 1)))
    else None
  }

  lemma {:induction false} FirstFoundIsFirst<S, I, O, E>(g: Gate<S, I, O, E>, rec: Recording<I, O>, n: nat)
    requires n <= |rec|
    ensures FirstOk(g, rec, n, FirstFound(g, rec, n))
  {
    if n > 0 { FirstFoundIsFirst(g, rec, n - 1); }
  }

  /** The report after the first `n` records. */
  function ReportBefore<S, I, O, E(==)>(g: Gate<S, I, O, E>, rec: Recording<I, O>, n: nat): GateReport<I, O>
    requires n <= |rec|
  {
    GateReport(|rec|, Tally(g, rec, n), FirstFound(g, rec, n), GapPairs(rec, n))
  }

  /** Where the gate stands after `k` records: the report so far, the last identifier, and no overflow yet. */
  ghost predicate Standing<S, I, O, E>(g: Gate<S, I, O, E>, rec: Recording<I, O>, k: nat, r: GateReport<I, O>,
                                       prev: Option<u64>, overflowChecks: bool)
  {
    && k <= |rec| && r == ReportBefore(g, rec, k)
    && prev == (if k == 0 then None else Some(rec[k - 1].id))
    && (overflowChecks ==> forall i | 0 <= i < k - 1 :: rec[i].id != MAX_U64)
  }

  lemma StandingAtEnd<S, I, O, E>(g: Gate<S, I, O, E>, rec: Recording<I, O>, r: GateReport<I, O>,
                                  prev: Option<u64>, overflowChecks: bool)
    requires Standing(g, rec, |rec|, r, prev, overflowChecks)
    ensures IsReport(g, rec, r) && !Overflows(rec, overflowChecks)
  {
    TallyIsCardinality(g, rec, |rec|);
    FirstFoundIsFirst(g, rec, |rec|);
  }

  /** The next identifier against the one before it; with overflow checks on, `p + 1` may fail. */
  method NoteId<I, O>(r: GateReport<I, O>, prev: Option<u64>, id: u64, overflowChecks: bool)
      returns (noted: Option<GateReport<I, O>>)
    ensures noted.None? <==> overflowChecks && prev == Some(MAX_U64)
    ensures noted.Some? ==> noted.value == r.(idGaps := r.idGaps +
      if prev.Some? && id != WrappingSucc(prev.value) then [(prev.value, id)] else [])
  {
    noted := Some(r);
    if prev.Some? {
      var p := prev.value;
      if p == MAX_U64 && overflowChecks {
        noted := None;
      } else if id != WrappingSucc(p) {
        noted := Some(r.(idGaps := r.idGaps + [(p, id)]));
      }
    }
  }

  /** The replayed output against the recorded one. */
  method NoteOutput<I, O, E(==)>(encode: O -> Option<E>, r: GateReport<I, O>, recorded: Recorded<I, O>, replayed: O)
      returns (noted: GateReport<I, O>)
    ensures encode(replayed) == encode(recorded.output) ==> noted == r
    ensures encode(replayed) != encode(recorded.output) ==>
      && noted.divergent == r.divergent + 1
      && noted.firstDivergence == (if r.firstDivergence.Some? then r.firstDivergence else
           Some(Divergence(recorded.id, recorded.input, recorded.output, replayed)))
      && noted.steps == r.steps && noted.idGaps == r.idGaps
  {
    noted := r;
    if encode(replayed) != encode(recorded.output) {
      noted := noted.(divergent := noted.divergent + 1);
      if noted.firstDivergence.None? {
        noted := noted.(firstDivergence :=
          Some(Divergence(recorded.id, recorded.input, recorded.output, replayed)));
      }
    }
  }

  /**
   One record: its identifier, and the output the machine has replayed for it. Where `p + 1` fails the
   machine has been stepped already, which nobody sees: the gate ends there without a report.
   */
  method NoteRecord<S, I, O, E(==)>(g: Gate<S, I, O, E>, rec: Recording<I, O>, k: nat, r: GateReport<I, O>,
                                    prev: Option<u64>, replayed: O, overflowChecks: bool)
      returns (noted: Option<GateReport<I, O>>)
    requires k < |rec| && Standing(g, rec, k, r, prev, overflowChecks)
    requires replayed == ReplayedAt(g, rec, k)
    ensures noted.None? ==> Overflows(rec, overflowChecks)
    ensures noted.Some? ==> Standing(g, rec, k + 1, noted.value, Some(rec[k].id), overflowChecks)
  {
    noted := NoteId(r, prev, rec[k].id, overflowChecks);
    if noted.Some? {
      var next := NoteOutput(g.encode, noted.value, rec[k], replayed);
      noted := Some(next);
    }
  }

  /** Replays the recording. With overflow checks on, an identifier overflow stops it without a report. */
  method ReplayGate<S, I, O, E(==)>(g: Gate<S, I, O, E>, rec: Recording<I, O>, overflowChecks: bool)
      returns (report: Option<GateReport<I, O>>, machine: S)
    ensures report.None? <==> Overflows(rec, overflowChecks)
    ensures report.Some? ==> IsReport(g, rec, report.value)
    ensures report.Some? ==> machine == StateAfter(g.step, g.cold, Inputs(rec))
  {
    var r := GateReport(|rec|, 0, None, []);
    var prev: Option<u64> := None;
    machine := g.cold;
    var k := 0;
    while k < |rec|
      invariant 0 <= k <= |rec|
      invariant machine == StateAfter(g.step, g.cold, Inputs(rec)[..k])
      invariant Standing(g, rec, k, r, prev, overflowChecks)
    {
      var (next, replayed) := g.step(machine, rec[k].input);
      StateAfterPrefix(g.step, g.cold, Inputs(rec), k);
      machine := next;
      var noted := NoteRecord(g, rec, k, r, prev, replayed, overflowChecks);
      if noted.None? {
        return None, machine;
      }
      r, prev := noted.value, Some(rec[k].id);
      k := k + 1;
    }
    assert Inputs(rec)[..k] == Inputs(rec);
    StandingAtEnd(g, rec, r, prev, overflowChecks);
    report := Some(r);
  }

  lemma {:induction false} NoGapsMeansConsecutive<I, O>(rec: Recording<I, O>, n: nat)
    requires 0 < n <= |rec|
    ensures (forall i | 0 <= i < n :: !GapAt(rec, i)) <==>
      (forall i | 0 <= i < n :: rec[i].id == CountFrom(rec[0].id, i))
  {
    if n > 1 {
      NoGapsMeansConsecutive(rec, n - 1);
      assert GapAt(rec, n - 1) <==> rec[n - 1].id != WrappingSucc(rec[n - 2].id);
      assert CountFrom(rec[0].id, n - 1) == WrappingSucc(CountFrom(rec[0].id, n - 2));
    }
  }

  lemma NoneDiverges<S, I, O, E>(g: Gate<S, I, O, E>, rec: Recording<I, O>)
    ensures |DivergentBefore(g, rec, |rec|)| == 0 <==> forall i | 0 <= i < |rec| :: !DivergesAt(g, rec, i)
  {
    var ds := DivergentBefore(g, rec, |rec|);
    forall i | 0 <= i < |rec| ensures DivergesAt(g, rec, i) <==> i in ds {}
    assert |ds| == 0 <==> ds == {};
  }

  lemma NoneGapped<I, O>(rec: Recording<I, O>)
    ensures |GapPairs(rec, |rec|)| == 0 <==> forall i | 0 <= i < |rec| :: !GapAt(rec, i)
  {
    GapPositionsExact(rec, |rec|);
    GapPairsExact(rec, |rec|);
    var gs := GapPositions(rec, |rec|);
    if |gs| > 0 { assert gs[0] in gs; }
  }

  /**
   A report passes exactly when the recording is not empty, every output encodes as the cold machine's,
   and the identifiers count up from the first.
   */
  lemma PassedExactly<S, I, O, E>(g: Gate<S, I, O, E>, rec: Recording<I, O>, r: GateReport<I, O>)
    requires IsReport(g, rec, r)
    ensures r.Passed() <==>
      && |rec| > 0
      && (forall i | 0 <= i < |rec| :: !DivergesAt(g, rec, i))
      && (forall i | 0 <= i < |rec| :: rec[i].id == CountFrom(rec[0].id, i))
  {
    NoneDiverges(g, rec);
    NoneGapped(rec);
    if |rec| > 0 { NoGapsMeansConsecutive(rec, |rec|); }
  }

  ghost predicate InjectiveEncoding<O(!new), E>(encode: O -> Option<E>) {
    forall x, y :: encode(x) == encode(y) ==> x == y
  }

  /** When distinct outputs have distinct encodings, passing means being the cold machine's own log. */
  lemma PassedMeansReplayed<S, I, O(!new), E>(g: Gate<S, I, O, E>, rec: Recording<I, O>, r: GateReport<I, O>)
    requires IsReport(g, rec, r) && InjectiveEncoding(g.encode)
    ensures r.Passed() <==>
      && |rec| > 0
      && (forall i | 0 <= i < |rec| :: rec[i].output == Answers(g.step, g.cold, Inputs(rec))[i])
      && (forall i | 0 <= i < |rec| :: rec[i].id == CountFrom(rec[0].id, i))
  {
    PassedExactly(g, rec, r);
    forall i | 0 <= i < |rec|
      ensures DivergesAt(g, rec, i) <==> rec[i].output != Answers(g.step, g.cold, Inputs(rec))[i]
    {
    }
  }

  /** The recorded outputs are those of the cold machine. */
  ghost predicate Own<S, I, O>(step: StepOf<S, I, O>, cold: S, rec: Recording<I, O>) {
    forall i | 0 <= i < |rec| :: rec[i].output == OutputAt(step, cold, Inputs(rec), i)
  }

  /** Records of the same steps, with outputs of their own. */
  predicate SameSteps<I(==), O>(rec: Recording<I, O>, other: Recording<I, O>) {
    |rec| == |other| && forall i | 0 <= i < |rec| :: rec[i].id == other[i].id && rec[i].input == other[i].input
  }

  /**
   Without encodings the gate is blind: of two recordings of the same steps with different outputs at most
   one can be the machine's own, and when nothing can be encoded both pass.
   */
  lemma UnencodablePasses<S, I, O, E>(g: Gate<S, I, O, E>, rec: Recording<I, O>, other: Recording<I, O>)
    requires SameSteps(rec, other)
    requires |rec| > 0 && forall i | 0 <= i < |rec| :: rec[i].id == CountFrom(rec[0].id, i)
    requires forall i | 0 <= i < |rec| ::
      g.encode(rec[i].output) == g.encode(other[i].output) == g.encode(ReplayedAt(g, rec, i)) == None
    ensures forall r | IsReport(g, rec, r) || IsReport(g, other, r) :: r.Passed()
    ensures rec != other ==> !Own(g.step, g.cold, rec) || !Own(g.step, g.cold, other)
  {
    assert Inputs(rec) == Inputs(other);
    forall r | IsReport(g, rec, r) || IsReport(g, other, r) ensures r.Passed() {
      if IsReport(g, rec, r) { PassedExactly(g, rec, r); } else { PassedExactly(g, other, r); }
    }
    if Own(g.step, g.cold, rec) && Own(g.step, g.cold, other) {
      forall i | 0 <= i < |rec| ensures rec[i] == other[i] {
        assert rec[i].output == OutputAt(g.step, g.cold, Inputs(rec), i) == other[i].output;
      }
      assert rec == other;
    }
  }

  /** A machine that answers `x` to everything. */
  function Always<S, I, O>(x: O): StepOf<S, I, O> {
    (s: S, _: I) => (s, x)
  }

  /** Two outputs with the same encoding, or with none, are one output to the gate. */
  lemma ConfusedOutputsPass<S, I, O, E>(encode: O -> Option<E>, x: O, y: O, cold: S, input: I, id: u64)
    requires encode(x) == encode(y) && x != y
    ensures var g, rec := Gate(Always(x), cold, encode), [Recorded(id, input, y)];
      !Own(g.step, cold, rec) && exists r :: IsReport(g, rec, r) && r.Passed()
  {
    var g, rec := Gate(Always<S, I, O>(x), cold, encode), [Recorded(id, input, y)];
    assert rec[0].output != OutputAt(g.step, cold, Inputs(rec), 0);
    assert !DivergesAt(g, rec, 0);
    NoneDiverges(g, rec);
    NoneGapped(rec);
    assert IsReport(g, rec, GateReport(1, 0, None, []));
  }

  /** So a machine that answers yes to everything passes for one that said no, if neither can be encoded. */
  lemma UnencodableMistakePasses()
    ensures var g, rec := Gate(Always<bool, bool, bool>(true), true, _ => Option<nat>.None), [Recorded(0, true, false)];
      !Own(g.step, g.cold, rec) && exists r :: IsReport(g, rec, r) && r.Passed()
  {
    ConfusedOutputsPass<bool, bool, bool, nat>(_ => Option<nat>.None, true, false, true, true, 0);
  }

  /** Whatever the machine and the log, a log that passes is the machine's own. */
  ghost predicate PassingProves<S(!new), I(!new), O(!new), E(!new)>(encode: O -> Option<E>) {
    forall g: Gate<S, I, O, E>, rec, r | IsReport(g, rec, r) && g.encode == encode && r.Passed() ::
      Own(g.step, g.cold, rec)
  }

  /**
   Passing proves the outputs equal exactly when the encoding tells any two outputs apart; at most one
   output may then have no encoding.
   */
  lemma PassingProvesExactly<S(00, !new), I(00, !new), O(!new), E(!new)>(encode: O -> Option<E>)
    ensures InjectiveEncoding(encode) <==> PassingProves<S, I, O, E>(encode)
  {
    if InjectiveEncoding(encode) {
      forall g: Gate<S, I, O, E>, rec, r | IsReport(g, rec, r) && g.encode == encode && r.Passed()
        ensures Own(g.step, g.cold, rec)
      {
        PassedMeansReplayed(g, rec, r);
      }
    } else {
      var x, y :| encode(x) == encode(y) && x != y;
      var cold: S, input: I :| true;
      ConfusedOutputsPass(encode, x, y, cold, input, 0);
    }
  }

  /** What is replayed for a record depends on the records up to it only. */
  lemma ReplayedOfPrefix<S, I, O, E>(g: Gate<S, I, O, E>, rec: Recording<I, O>, n: nat, i: nat)
    requires i < n <= |rec|
    ensures ReplayedAt(g, rec[..n], i) == ReplayedAt(g, rec, i)
  {
    assert Inputs(rec[..n])[..i] == Inputs(rec)[..i];
  }

  /** Cutting a recording short does not make a passing gate fail, unless nothing is left. */
  lemma PrefixPasses<S, I, O, E>(g: Gate<S, I, O, E>, rec: Recording<I, O>, n: nat,
                                     whole: GateReport<I, O>, part: GateReport<I, O>)
    requires 0 < n <= |rec|
    requires IsReport(g, rec, whole) && whole.Passed()
    requires IsReport(g, rec[..n], part)
    ensures part.Passed()
  {
    PassedExactly(g, rec, whole);
    PassedExactly(g, rec[..n], part);
    var head := rec[..n];
    forall i | 0 <= i < n ensures !DivergesAt(g, head, i) && head[i].id == CountFrom(head[0].id, i) {
      ReplayedOfPrefix(g, rec, n, i);
      assert head[i] == rec[i] && !DivergesAt(g, rec, i);
    }
  }
}
