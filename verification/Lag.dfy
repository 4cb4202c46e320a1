/** Consumer lag: consumers add a sample to the running total and then count
    it; the monitor swaps the count and then, if there were samples, the total.
    Both counters are atomic, the pairs are not. */
module Lag {
  import opened Basics

  /** A sample's lag in milliseconds (negative under clock skew), and whether
      the monitor has already swapped it out of the total. */
  datatype Sample = Sample(lag: int, swept: bool)

  /** Between its two additions a consumer has a sample in hand. */
  datatype Consumer = Receiving | Counting(sample: Sample)

  datatype Monitor = Ticking | Averaging(batch: seq<Sample>)

  datatype Counters = Counters(
    totalLagMs: int,
    lagSampleCount: nat,
    consumers: seq<Consumer>,
    monitor: Monitor,
    // history
    counted: seq<Sample>,     // counted since the last swap of the count
    reported: seq<Sample>,    // in the batches averaged so far
    reportedTotal: int,       // sum of the totals swapped out
    added: int)               // sum of all lags ever added

  function NewCounters(consumers: nat): Counters {
    Counters(0, 0, seq(consumers, _ => Receiving), Ticking, [], [], 0, 0)
  }

  datatype LagAction =
    | AddTotal(i: nat, lag: int)
    | AddCount(i: nat)
    | SwapCount
    | SwapTotal

  predicate LagEnabled(c: Counters, a: LagAction) {
    match a
    case AddTotal(i, _) => i < |c.consumers| && c.consumers[i].Receiving?
    case AddCount(i) => i < |c.consumers| && c.consumers[i].Counting?
    case SwapCount => c.monitor.Ticking?
    case SwapTotal => c.monitor.Averaging?
  }

  function Swept(s: seq<Sample>): seq<Sample> { seq(|s|, i requires 0 <= i < |s| => s[i].(swept := true)) }

  function SweptInHand(s: seq<Consumer>): seq<Consumer> {
    seq(|s|, i requires 0 <= i < |s| => if s[i].Counting? then Counting(s[i].sample.(swept := true)) else Receiving)
  }

  function LagNext(c: Counters, a: LagAction): Counters
    requires LagEnabled(c, a)
  {
    match a
    case AddTotal(i, lag) =>
      c.(totalLagMs := c.totalLagMs + lag, consumers := c.consumers[i := Counting(Sample(lag, false))],
         added := c.added + lag)
    case AddCount(i) =>
      c.(lagSampleCount := c.lagSampleCount + 1, consumers := c.consumers[i := Receiving],
         counted := c.counted + [c.consumers[i].sample])
    case SwapCount =>
      if c.lagSampleCount == 0 then c
      else c.(lagSampleCount := 0, monitor := Averaging(c.counted), counted := [])
    case SwapTotal =>
      c.(totalLagMs := 0, monitor := Ticking, consumers := SweptInHand(c.consumers), counted := Swept(c.counted),
         reported := c.reported + Swept(c.monitor.batch), reportedTotal := c.reportedTotal + c.totalLagMs)
  }

  ghost predicate LagRun(c: Counters, acts: seq<LagAction>, d: Counters)
    decreases |acts|
  {
    if acts == [] then c == d
    else LagEnabled(c, acts[0]) && LagRun(LagNext(c, acts[0]), acts[1..], d)
  }

  // ----------------------------------------------------------------- measuring

  /** Sum of the lags of those samples that are, or are not, swept. */
  function Sum(s: seq<Sample>, swept: bool): int {
    if s == [] then 0
    else Sum(s[..|s| - 1], swept) + if s[|s| - 1].swept == swept then s[|s| - 1].lag else 0
  }

  function Lags(s: seq<Sample>): int { Sum(s, true) + Sum(s, false) }

  function InHand(s: seq<Consumer>): seq<Sample> {
    if s == [] then []
    else InHand(s[..|s| - 1]) + if s[|s| - 1].Counting? then [s[|s| - 1].sample] else []
  }

  function Batch(m: Monitor): seq<Sample> { if m.Averaging? then m.batch else [] }

  lemma SumSnoc(s: seq<Sample>, x: Sample, swept: bool)
    ensures Sum(s + [x], swept) == Sum(s, swept) + if x.swept == swept then x.lag else 0
  {
    assert (s + [x])[..|s|] == s;
  }

  lemma {:induction false} SumConcat(s: seq<Sample>, t: seq<Sample>, swept: bool)
    ensures Sum(s + t, swept) == Sum(s, swept) + Sum(t, swept)
  {
    if t == [] {
      assert s + t == s;
    } else {
      var front := t[..|t| - 1];
      SumConcat(s, front, swept);
      assert s + t == (s + front) + [t[|t| - 1]];
      SumSnoc(s + front, t[|t| - 1], swept);
    }
  }

  lemma {:induction false} SumSwept(s: seq<Sample>)
    ensures Sum(Swept(s), true) == Lags(s) && Sum(Swept(s), false) == 0
  {
    if s != [] {
      SumSwept(s[..|s| - 1]);
      assert Swept(s)[..|s| - 1] == Swept(s[..|s| - 1]);
    }
  }

  lemma {:induction false} HandSwept(s: seq<Consumer>)
    ensures InHand(SweptInHand(s)) == Swept(InHand(s))
  {
    if s != [] {
      var front := s[..|s| - 1];
      HandSwept(front);
      assert SweptInHand(s)[..|s| - 1] == SweptInHand(front);
    }
  }

  function Weight(v: Consumer, swept: bool): int {
    if v.Counting? && v.sample.swept == swept then v.sample.lag else 0
  }

  lemma LastInHand(s: seq<Consumer>, swept: bool)
    requires s != []
    ensures Sum(InHand(s), swept) == Sum(InHand(s[..|s| - 1]), swept) + Weight(s[|s| - 1], swept)
  {
    var v := s[|s| - 1];
    if v.Counting? {
      SumSnoc(InHand(s[..|s| - 1]), v.sample, swept);
    } else {
      assert InHand(s) == InHand(s[..|s| - 1]);
    }
  }

  /** What one consumer's change does to the samples in hand. */
  lemma {:induction false} HandUpdate(s: seq<Consumer>, i: nat, v: Consumer, swept: bool)
    requires i < |s|
    ensures Sum(InHand(s[i := v]), swept) == Sum(InHand(s), swept) - Weight(s[i], swept) + Weight(v, swept)
  {
    var n := |s| - 1;
    LastInHand(s, swept);
    LastInHand(s[i := v], swept);
    if i == n {
      assert s[i := v][..n] == s[..n];
    } else {
      assert s[i := v][..n] == s[..n][i := v];
      HandUpdate(s[..n], i, v, swept);
    }
  }

  lemma {:induction false} NothingInHand(s: seq<Consumer>)
    requires forall i :: 0 <= i < |s| ==> s[i].Receiving?
    ensures InHand(s) == []
  {
    if s != [] { NothingInHand(s[..|s| - 1]); }
  }

  // ----------------------------------------------------------------- invariants

  /** The sum over every sample that is not yet in an averaged batch. */
  function Outside(c: Counters, swept: bool): int {
    Sum(InHand(c.consumers), swept) + Sum(c.counted, swept) + Sum(Batch(c.monitor), swept)
  }

  ghost predicate LagOk(c: Counters) {
    && c.lagSampleCount == |c.counted|
    && c.totalLagMs == Outside(c, false)
    && c.reportedTotal == Lags(c.reported) + Outside(c, true)
    && c.added == c.totalLagMs + c.reportedTotal
    && (c.monitor.Averaging? ==> c.monitor.batch != [])
  }

  lemma OutsideChange(c: Counters, a: LagAction, swept: bool)
    requires LagEnabled(c, a) && (a.AddTotal? || a.AddCount?)
    ensures Outside(LagNext(c, a), swept) == Outside(c, swept) + if a.AddTotal? && !swept then a.lag else 0
  {
    HandUpdate(c.consumers, a.i, LagNext(c, a).consumers[a.i], swept);
    if a.AddCount? { SumSnoc(c.counted, c.consumers[a.i].sample, swept); }
  }

  lemma ConsumerKeepsLagOk(c: Counters, a: LagAction)
    requires LagOk(c) && LagEnabled(c, a) && (a.AddTotal? || a.AddCount?)
    ensures LagOk(LagNext(c, a))
  {
    OutsideChange(c, a, true);
    OutsideChange(c, a, false);
  }

  lemma SwapKeepsLagOk(c: Counters)
    requires LagOk(c) && c.monitor.Averaging?
    ensures LagOk(LagNext(c, SwapTotal))
  {
    HandSwept(c.consumers);
    SumSwept(InHand(c.consumers));
    SumSwept(c.counted);
    SumSwept(c.monitor.batch);
    SumConcat(c.reported, Swept(c.monitor.batch), true);
    SumConcat(c.reported, Swept(c.monitor.batch), false);
  }

  lemma {:induction false} LagOkAlways(c: Counters, acts: seq<LagAction>, d: Counters)
    requires LagOk(c) && LagRun(c, acts, d)
    ensures LagOk(d)
    decreases |acts|
  {
    if acts != [] {
      var a := acts[0];
      if a.AddTotal? || a.AddCount? {
        ConsumerKeepsLagOk(c, a);
      } else if a.SwapTotal? {
        SwapKeepsLagOk(c);
      }
      LagOkAlways(LagNext(c, a), acts[1..], d);
    }
  }

  lemma NewCountersOk(consumers: nat)
    ensures LagOk(NewCounters(consumers))
  {
    NothingInHand(NewCounters(consumers).consumers);
  }

  // ------------------------------------------------------------ main results

  /** Swapping loses nothing, whatever interleaves: what was added is what was
      swapped out plus what is left; the reported total exceeds the lags of the
      averaged samples by exactly the lags swept out before their sample was
      averaged; and no average divides by zero. */
  lemma NothingIsLost(consumers: nat, acts: seq<LagAction>, c: Counters)
    requires LagRun(NewCounters(consumers), acts, c)
    ensures c.added == c.reportedTotal + c.totalLagMs
    ensures c.lagSampleCount == |c.counted|
    ensures c.reportedTotal == Lags(c.reported) + Outside(c, true)
    ensures c.monitor.Averaging? ==> c.monitor.batch != []
  {
    NewCountersOk(consumers);
    LagOkAlways(NewCounters(consumers), acts, c);
  }

  predicate AtRest(c: Counters) {
    c.monitor.Ticking? && c.lagSampleCount == 0 && forall i :: 0 <= i < |c.consumers| ==> c.consumers[i].Receiving?
  }

  lemma NothingOutside(c: Counters, swept: bool)
    requires AtRest(c) && |c.counted| == c.lagSampleCount
    ensures Outside(c, swept) == 0
  {
    NothingInHand(c.consumers);
    assert c.counted == [];
  }

  lemma ExactAtRest(c: Counters)
    requires LagOk(c) && AtRest(c)
    ensures c.totalLagMs == 0 && c.reportedTotal == Lags(c.reported) == c.added
  {
    NothingOutside(c, true);
    NothingOutside(c, false);
  }

  /** Once every consumer has counted its sample and the monitor has taken the
      last count, nothing is left behind and the reports are exact. */
  lemma ReportsAreExactAtRest(consumers: nat, acts: seq<LagAction>, c: Counters)
    requires LagRun(NewCounters(consumers), acts, c) && AtRest(c)
    ensures c.totalLagMs == 0 && c.reportedTotal == Lags(c.reported) == c.added
  {
    NewCountersOk(consumers);
    LagOkAlways(NewCounters(consumers), acts, c);
    ExactAtRest(c);
  }

  predicate NonNegative(s: seq<Sample>) { forall i :: 0 <= i < |s| ==> s[i].lag >= 0 }

  ghost predicate AllNonNegative(c: Counters) {
    NonNegative(InHand(c.consumers)) && NonNegative(c.counted) && NonNegative(Batch(c.monitor))
  }

  lemma {:induction false} HandNonNegative(s: seq<Consumer>, i: nat, v: Consumer)
    requires i < |s| && NonNegative(InHand(s)) && (v.Counting? ==> v.sample.lag >= 0)
    ensures NonNegative(InHand(s[i := v]))
    ensures s[i].Counting? ==> s[i].sample.lag >= 0
  {
    var n := |s| - 1;
    var front := s[..n];
    assert InHand(s) == InHand(front) + (if s[n].Counting? then [s[n].sample] else []);
    assert NonNegative(InHand(front)) by {
      forall k | 0 <= k < |InHand(front)| ensures InHand(front)[k].lag >= 0 { assert InHand(front)[k] == InHand(s)[k]; }
    }
    if s[n].Counting? { assert s[n].sample == InHand(s)[|InHand(front)|]; }
    if i == n {
      assert s[i := v][..n] == front;
    } else {
      assert s[i := v][..n] == front[i := v];
      HandNonNegative(front, i, v);
    }
  }

  lemma NonNegativeKept(c: Counters, a: LagAction)
    requires AllNonNegative(c) && LagEnabled(c, a) && (a.AddTotal? ==> a.lag >= 0)
    ensures AllNonNegative(LagNext(c, a))
  {
    if a.AddTotal? || a.AddCount? {
      HandNonNegative(c.consumers, a.i, LagNext(c, a).consumers[a.i]);
    } else if a.SwapTotal? {
      HandSwept(c.consumers);
    }
  }

  lemma {:induction false} NonNegativeAlways(c: Counters, acts: seq<LagAction>, d: Counters)
    requires AllNonNegative(c) && LagRun(c, acts, d)
    requires forall i :: 0 <= i < |acts| && acts[i].AddTotal? ==> acts[i].lag >= 0
    ensures AllNonNegative(d)
    decreases |acts|
  {
    if acts != [] {
      NonNegativeKept(c, acts[0]);
      NonNegativeAlways(LagNext(c, acts[0]), acts[1..], d);
    }
  }

  lemma {:induction false} SumNonNegative(s: seq<Sample>, swept: bool)
    requires NonNegative(s)
    ensures Sum(s, swept) >= 0
  {
    if s != [] { SumNonNegative(s[..|s| - 1], swept); }
  }

  /** With non-negative lags the reports never fall short of the samples they
      average. */
  lemma ReportsCoverTheirSamples(consumers: nat, acts: seq<LagAction>, c: Counters)
    requires LagRun(NewCounters(consumers), acts, c)
    requires forall i :: 0 <= i < |acts| && acts[i].AddTotal? ==> acts[i].lag >= 0
    ensures c.reportedTotal >= Lags(c.reported)
  {
    NothingIsLost(consumers, acts, c);
    NothingInHand(NewCounters(consumers).consumers);
    NonNegativeAlways(NewCounters(consumers), acts, c);
    SumNonNegative(InHand(c.consumers), true);
    SumNonNegative(c.counted, true);
    SumNonNegative(Batch(c.monitor), true);
  }

  /** Every lag a run adds is one of these. */
  ghost predicate LagsAmong(acts: seq<LagAction>, lags: iset<int>) {
    forall i :: 0 <= i < |acts| && acts[i].AddTotal? ==> acts[i].lag in lags
  }

  /** With a clock running ahead by any amount they can fall short: of two equal
      negative lags the second is swept out before it is counted. */
  lemma SkewedClockUnderreports(consumers: nat, v: int) returns (acts: seq<LagAction>, c: Counters)
    requires consumers > 0 && v < 0
    ensures LagRun(NewCounters(consumers), acts, c) && LagsAmong(acts, iset{v})
    ensures c.reportedTotal < Lags(c.reported)
  {
    var c0 := NewCounters(consumers);
    var c1 := LagNext(c0, AddTotal(0, v));
    var c2 := LagNext(c1, AddCount(0));
    var c3 := LagNext(c2, SwapCount);
    var c4 := LagNext(c3, AddTotal(0, v));
    c := LagNext(c4, SwapTotal);
    acts := [AddTotal(0, v), AddCount(0), SwapCount, AddTotal(0, v), SwapTotal];
    assert LagRun(c, [], c);
    assert acts[4..][1..] == [] && LagRun(c4, acts[4..], c);
    assert acts[3..][1..] == acts[4..] && LagRun(c3, acts[3..], c);
    assert acts[2..][1..] == acts[3..] && LagRun(c2, acts[2..], c);
    assert acts[1..][1..] == acts[2..] && LagRun(c1, acts[1..], c);
    assert c.reported == [] + [Sample(v, true)];
    SumSnoc([], Sample(v, true), true);
    SumSnoc([], Sample(v, true), false);
  }

  /** However runs go, with these lags no report falls short. */
  ghost predicate AlwaysCovers(consumers: nat, lags: iset<int>) {
    forall acts, c :: LagRun(NewCounters(consumers), acts, c) && LagsAmong(acts, lags) ==>
      c.reportedTotal >= Lags(c.reported)
  }

  /** The exact condition on the lags that can occur. */
  lemma CoversIffNonNegative(consumers: nat, lags: iset<int>)
    requires consumers > 0
    ensures AlwaysCovers(consumers, lags) <==> forall v :: v in lags ==> v >= 0
  {
    if v :| v in lags && v < 0 {
      var acts, c := SkewedClockUnderreports(consumers, v);
      assert LagsAmong(acts, lags);
    } else {
      forall acts, c | LagRun(NewCounters(consumers), acts, c) && LagsAmong(acts, lags)
        ensures c.reportedTotal >= Lags(c.reported)
      {
        ReportsCoverTheirSamples(consumers, acts, c);
      }
    }
  }

  // ----------------------------------------------------------- the code itself

  /** The two accumulators as Rabbit holds them. */
  class LagMeter {
    var totalLagMs: int
    var lagSampleCount: nat

    constructor ()
      ensures totalLagMs == 0 && lagSampleCount == 0
    {
      totalLagMs, lagSampleCount := 0, 0;
    }

    /** A consumer's two additions, uninterrupted. */
    method Add(lag: int)
      modifies this
      ensures totalLagMs == old(totalLagMs) + lag && lagSampleCount == old(lagSampleCount) + 1
    {
      totalLagMs := totalLagMs + lag;
      lagSampleCount := lagSampleCount + 1;
    }

    /** A tick of the monitor, uninterrupted: both counters are reset iff there
        is something to average. */
    method Report() returns (average: Option<int>)
      modifies this
      ensures old(lagSampleCount) == 0 ==> average == None && totalLagMs == old(totalLagMs)
      ensures old(lagSampleCount) > 0 ==>
        average == Some(Quotient(old(totalLagMs), old(lagSampleCount))) && totalLagMs == 0
      ensures lagSampleCount == 0
    {
      var count := lagSampleCount;
      lagSampleCount := 0;
      if count > 0 {
        average := Some(Quotient(totalLagMs, count));
        totalLagMs := 0;
      } else {
        average := None;
      }
    }
  }
}
