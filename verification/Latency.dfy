/** The load client's latency figures: per connection and over all of them. */
module Latency {
  import opened Basics

  // ------------------------------------------------------------------ samples

  function Total(s: seq<int>): int {
    if s == [] then 0 else Total(s[..|s| - 1]) + s[|s| - 1]
  }

  /** Samples that are at most v, and below v. */
  function AtMost(s: seq<int>, v: int): nat {
    if s == [] then 0 else (if s[0] <= v then 1 else 0) + AtMost(s[1..], v)
  }

  function Below(s: seq<int>, v: int): nat { AtMost(s, v - 1) }

  predicate Ascending(s: seq<int>) { forall i, j :: 0 <= i <= j < |s| ==> s[i] <= s[j] }

  /** v is the k-th smallest sample, counting from 0. */
  predicate Ranks(s: seq<int>, v: int, k: nat) { v in s && Below(s, v) <= k < AtMost(s, v) }

  lemma {:induction false} AtMostGrows(s: seq<int>, v: int, w: int)
    requires v <= w
    ensures AtMost(s, v) <= AtMost(s, w)
  {
    if s != [] { AtMostGrows(s[1..], v, w); }
  }

  /** The rank determines the sample, and ranks are ordered as their samples. */
  lemma RanksOrdered(s: seq<int>, v: int, k: nat, w: int, l: nat)
    requires Ranks(s, v, k) && Ranks(s, w, l) && k <= l
    ensures v <= w
    ensures k == l ==> v == w
  {
    if w < v { AtMostGrows(s, w, v - 1); }
    if v < w { AtMostGrows(s, v, w - 1); }
  }

  lemma {:induction false} AtMostConcat(s: seq<int>, t: seq<int>, v: int)
    ensures AtMost(s + t, v) == AtMost(s, v) + AtMost(t, v)
  {
    if s == [] {
      assert s + t == t;
    } else {
      assert (s + t)[1..] == s[1..] + t;
      AtMostConcat(s[1..], t, v);
    }
  }

  /** Where the first sample of s is in its permutation t. */
  lemma TakeOut(s: seq<int>, t: seq<int>) returns (before: seq<int>, after: seq<int>)
    requires s != [] && multiset(s) == multiset(t)
    ensures t == before + ([s[0]] + after) && multiset(s[1..]) == multiset(before + after)
  {
    assert s == [s[0]] + s[1..];
    assert s[0] in multiset(t);
    var k :| 0 <= k < |t| && t[k] == s[0];
    before, after := t[..k], t[k + 1..];
    assert t == before + ([s[0]] + after);
    var first := multiset{s[0]};
    assert multiset(before + after) == multiset(before) + multiset(after);
    assert multiset(t) == multiset(before) + (first + multiset(after));
    assert multiset(before + after) == multiset(t) - first;
    assert multiset(s[1..]) == multiset(s) - first;
  }

  /** Counting does not depend on the order of the samples. */
  lemma {:induction false} AtMostPermuted(s: seq<int>, t: seq<int>, v: int)
    requires multiset(s) == multiset(t)
    ensures AtMost(s, v) == AtMost(t, v)
    decreases |s|
  {
    if s == [] {
      assert |multiset(t)| == 0;
    } else {
      var before, after := TakeOut(s, t);
      AtMostPermuted(s[1..], before + after, v);
      AtMostConcat(before, [s[0]] + after, v);
      AtMostConcat([s[0]], after, v);
      AtMostConcat(before, after, v);
    }
  }

  // ------------------------------------------------------------------ sorting

  function Insert(x: int, s: seq<int>): seq<int> {
    if s == [] || x <= s[0] then [x] + s else [s[0]] + Insert(x, s[1..])
  }

  /** What sort.Slice leaves behind: the samples in ascending order. */
  function Sorted(s: seq<int>): seq<int> {
    if s == [] then [] else Insert(s[0], Sorted(s[1..]))
  }

  lemma {:induction false} InsertKeepsOrder(x: int, s: seq<int>)
    requires Ascending(s)
    ensures Ascending(Insert(x, s)) && Insert(x, s) != []
    ensures Insert(x, s)[0] == if s == [] || x <= s[0] then x else s[0]
  {
    if s != [] && x > s[0] {
      InsertKeepsOrder(x, s[1..]);
      HeadFirst(s[0], Insert(x, s[1..]));
    }
  }

  lemma HeadFirst(h: int, t: seq<int>)
    requires Ascending(t) && (t != [] ==> h <= t[0])
    ensures Ascending([h] + t)
  {}

  lemma {:induction false} InsertAdds(x: int, s: seq<int>)
    ensures multiset(Insert(x, s)) == multiset(s) + multiset{x}
  {
    if s != [] && x > s[0] {
      InsertAdds(x, s[1..]);
      assert s == [s[0]] + s[1..];
    }
  }

  lemma SortedIsAscendingPermutation(s: seq<int>)
    ensures Ascending(Sorted(s)) && multiset(Sorted(s)) == multiset(s) && |Sorted(s)| == |s|
  {
    SortedAscends(s);
    SortedPermutes(s);
    assert |multiset(Sorted(s))| == |Sorted(s)| && |multiset(s)| == |s|;
  }

  lemma {:induction false} SortedAscends(s: seq<int>)
    ensures Ascending(Sorted(s))
  {
    if s != [] {
      SortedAscends(s[1..]);
      InsertKeepsOrder(s[0], Sorted(s[1..]));
    }
  }

  lemma {:induction false} SortedPermutes(s: seq<int>)
    ensures multiset(Sorted(s)) == multiset(s)
  {
    if s != [] {
      SortedPermutes(s[1..]);
      InsertAdds(s[0], Sorted(s[1..]));
      assert s == [s[0]] + s[1..];
    }
  }

  lemma {:induction false} NoneAtMost(t: seq<int>, v: int)
    requires forall i :: 0 <= i < |t| ==> t[i] > v
    ensures AtMost(t, v) == 0
  {
    if t != [] { NoneAtMost(t[1..], v); }
  }

  lemma {:induction false} AllAtMost(t: seq<int>, v: int)
    requires forall i :: 0 <= i < |t| ==> t[i] <= v
    ensures AtMost(t, v) == |t|
  {
    if t != [] { AllAtMost(t[1..], v); }
  }

  lemma {:induction false} AtMostBounded(t: seq<int>, v: int)
    ensures AtMost(t, v) <= |t|
  {
    if t != [] { AtMostBounded(t[1..], v); }
  }

  lemma AscendingRanks(t: seq<int>, k: nat)
    requires Ascending(t) && k < |t|
    ensures Ranks(t, t[k], k)
  {
    EnoughAtMost(t, k);
    FewBelow(t, k);
  }

  lemma EnoughAtMost(t: seq<int>, k: nat)
    requires Ascending(t) && k < |t|
    ensures k < AtMost(t, t[k])
  {
    assert t == t[..k + 1] + t[k + 1..];
    AtMostConcat(t[..k + 1], t[k + 1..], t[k]);
    AllAtMost(t[..k + 1], t[k]);
  }

  lemma FewBelow(t: seq<int>, k: nat)
    requires Ascending(t) && k < |t|
    ensures Below(t, t[k]) <= k
  {
    assert t == t[..k] + t[k..];
    AtMostConcat(t[..k], t[k..], t[k] - 1);
    AtMostBounded(t[..k], t[k] - 1);
    NoneAtMost(t[k..], t[k] - 1);
  }

  /** Position k of the sorted samples holds the k-th smallest. */
  lemma SortedRanks(s: seq<int>, k: nat)
    requires k < |s|
    ensures |Sorted(s)| == |s| && Ranks(s, Sorted(s)[k], k)
  {
    SortedIsAscendingPermutation(s);
    var t := Sorted(s);
    AscendingRanks(t, k);
    AtMostPermuted(s, t, t[k]);
    AtMostPermuted(s, t, t[k] - 1);
    assert t[k] in multiset(t);
  }

  // --------------------------------------------------------------------- mean

  lemma {:induction false} TotalBetween(s: seq<int>, lo: int, hi: int)
    requires forall i :: 0 <= i < |s| ==> lo <= s[i] <= hi
    ensures lo * |s| <= Total(s) <= hi * |s|
  {
    if s != [] {
      TotalBetween(s[..|s| - 1], lo, hi);
      Widen(lo, |s| - 1);
      Widen(hi, |s| - 1);
    }
  }

  lemma Widen(x: int, n: nat)
    ensures x * (n + 1) == x * n + x
  {}

  lemma Scale(x: int, y: int, n: nat)
    requires x <= y
    ensures x * n <= y * n
  {
    assert (y - x) * n >= 0;
  }

  lemma Cancel(x: int, y: int, n: nat)
    requires x * n < y * n
    ensures x < y
  {
    if y <= x { Scale(y, x, n); }
  }

  /** Truncation toward zero keeps a mean within integer bounds, whatever the
      signs. */
  lemma QuotientBetween(a: int, n: nat, lo: int, hi: int)
    requires n > 0 && lo * n <= a <= hi * n
    ensures lo <= Quotient(a, n) <= hi
  {
    var q := Quotient(a, n);
    Cancel(lo, q + 1, n) by { assert (q + 1) * n == q * n + n; }
    Cancel(q - 1, hi, n) by { assert (q - 1) * n == q * n - n; }
  }

  // ------------------------------------------------------------------ figures

  datatype Figures = Figures(mean: int, median: int, p95: int, p99: int, min: int, max: int)

  /** The figures taken by position from n sorted samples. */
  function FiguresOf(sorted: seq<int>, total: int): Figures
    requires sorted != []
  {
    var n := |sorted|;
    Figures(Quotient(total, n), sorted[n / 2], sorted[95 * n / 100], sorted[99 * n / 100], sorted[0], sorted[n - 1])
  }

  /** What the figures mean for the samples, in no particular order. */
  ghost predicate Describes(f: Figures, s: seq<int>) {
    var n := |s|;
    && n > 0
    && Ranks(s, f.min, 0) && Ranks(s, f.max, n - 1)
    && Ranks(s, f.median, n / 2) && Ranks(s, f.p95, 95 * n / 100) && Ranks(s, f.p99, 99 * n / 100)
    && f.mean == Quotient(Total(s), n)
  }

  lemma FiguresDescribe(s: seq<int>)
    requires s != []
    ensures Sorted(s) != [] && Describes(FiguresOf(Sorted(s), Total(s)), s)
  {
    var n := |s|;
    SortedRanks(s, 0);
    SortedRanks(s, n - 1);
    SortedRanks(s, n / 2);
    SortedRanks(s, 95 * n / 100);
    SortedRanks(s, 99 * n / 100);
  }

  lemma {:induction false} OneAtMost(s: seq<int>, i: nat, v: int)
    requires i < |s| && s[i] <= v
    ensures AtMost(s, v) >= 1
  {
    if i > 0 { OneAtMost(s[1..], i - 1, v); }
  }

  lemma {:induction false} OneAbove(s: seq<int>, i: nat, v: int)
    requires i < |s| && s[i] > v
    ensures AtMost(s, v) < |s|
  {
    if i > 0 { OneAbove(s[1..], i - 1, v); } else { AtMostBounded(s[1..], v); }
  }

  lemma ExtremesBound(f: Figures, s: seq<int>, x: int)
    requires Describes(f, s) && x in s
    ensures f.min <= x <= f.max
  {
    var i :| 0 <= i < |s| && s[i] == x;
    if x < f.min { OneAtMost(s, i, f.min - 1); }
    if x > f.max { OneAbove(s, i, f.max); }
  }

  lemma MeanWithin(f: Figures, s: seq<int>)
    requires Describes(f, s)
    ensures f.min <= f.mean <= f.max
  {
    forall i | 0 <= i < |s| ensures f.min <= s[i] <= f.max { ExtremesBound(f, s, s[i]); }
    TotalBetween(s, f.min, f.max);
    QuotientBetween(Total(s), |s|, f.min, f.max);
  }

  /** The figures are in order and within the samples, more than 95% (99%) of
      the samples are at most p95 (p99) and at most 95% (99%) are below it. */
  lemma FiguresMakeSense(f: Figures, s: seq<int>)
    requires Describes(f, s)
    ensures f.min <= f.median <= f.p95 <= f.p99 <= f.max && f.min <= f.mean <= f.max
    ensures forall x :: x in s ==> f.min <= x <= f.max
    ensures 100 * Below(s, f.p95) <= 95 * |s| < 100 * AtMost(s, f.p95)
    ensures 100 * Below(s, f.p99) <= 99 * |s| < 100 * AtMost(s, f.p99)
    ensures 2 * Below(s, f.median) <= |s| < 2 * AtMost(s, f.median)
  {
    var n := |s|;
    forall x | x in s ensures f.min <= x <= f.max { ExtremesBound(f, s, x); }
    RanksOrdered(s, f.median, n / 2, f.p95, 95 * n / 100);
    RanksOrdered(s, f.p95, 95 * n / 100, f.p99, 99 * n / 100);
    MeanWithin(f, s);
  }

  /** Only one set of figures describes given samples. */
  lemma FiguresAreUnique(f: Figures, g: Figures, s: seq<int>)
    requires Describes(f, s) && Describes(g, s)
    ensures f == g
  {
    var n := |s|;
    RanksOrdered(s, f.min, 0, g.min, 0);
    RanksOrdered(s, f.max, n - 1, g.max, n - 1);
    RanksOrdered(s, f.median, n / 2, g.median, n / 2);
    RanksOrdered(s, f.p95, 95 * n / 100, g.p95, 95 * n / 100);
    RanksOrdered(s, f.p99, 99 * n / 100, g.p99, 99 * n / 100);
  }

  // ---------------------------------------------------------- the code itself

  /** A response as the reader of a connection sees it; latency is None when
      its timestamp does not parse. */
  datatype Heard = Heard(kind: string, user: string, latency: Option<int>)

  function Latencies(hs: seq<Heard>): seq<int> {
    if hs == [] then []
    else Latencies(hs[..|hs| - 1]) + (if hs[|hs| - 1].latency.Some? then [hs[|hs| - 1].latency.value] else [])
  }

  function OfKind(hs: seq<Heard>, kind: string): nat {
    if hs == [] then 0 else OfKind(hs[..|hs| - 1], kind) + if hs[|hs| - 1].kind == kind then 1 else 0
  }

  function Joiners(hs: seq<Heard>): set<string> {
    if hs == [] then {} else Joiners(hs[..|hs| - 1]) + if hs[|hs| - 1].kind == "JOIN" then {hs[|hs| - 1].user} else {}
  }

  type Kinds = map<string, nat>

  function KindCount(m: Kinds, kind: string): nat { if kind in m then m[kind] else 0 }

  datatype RoomStats = RoomStats(roomId: string, userId: string, messageCount: nat, figures: Figures,
                                 messageTypes: Kinds)

  /** The report a connection should send about what it heard. */
  ghost predicate Reports(stats: RoomStats, hs: seq<Heard>) {
    && stats.messageCount == |hs| && Describes(stats.figures, Latencies(hs))
    && Counted(stats.messageTypes, hs)
  }

  ghost predicate Counted(m: Kinds, hs: seq<Heard>) { forall kind :: KindCount(m, kind) == OfKind(hs, kind) }

  lemma CountsOne(m: Kinds, hs: seq<Heard>, resp: Heard)
    requires Counted(m, hs)
    ensures Counted(m[resp.kind := KindCount(m, resp.kind) + 1], hs + [resp])
  {
    var more := m[resp.kind := KindCount(m, resp.kind) + 1];
    forall kind ensures KindCount(more, kind) == OfKind(hs + [resp], kind) {
      OfKindSnoc(hs, resp, kind);
      assert KindCount(m, kind) == OfKind(hs, kind);
    }
  }

  lemma OfKindSnoc(hs: seq<Heard>, resp: Heard, kind: string)
    ensures OfKind(hs + [resp], kind) == OfKind(hs, kind) + if resp.kind == kind then 1 else 0
  {
    assert (hs + [resp])[..|hs|] == hs;
  }

  /** The reader's running variables. */
  datatype Running = Running(received: nat, totalLatency: int, latencies: seq<int>, messageTypes: Kinds,
                             users: set<string>)

  /** They sum up the responses heard. */
  ghost predicate Accumulated(v: Running, hs: seq<Heard>) {
    && v.received == |hs| && v.latencies == Latencies(hs) && v.totalLatency == Total(v.latencies)
    && Counted(v.messageTypes, hs) && v.users == Joiners(hs)
  }

  function Updated(v: Running, resp: Heard): Running {
    Running(v.received + 1,
            if resp.latency.Some? then v.totalLatency + resp.latency.value else v.totalLatency,
            if resp.latency.Some? then v.latencies + [resp.latency.value] else v.latencies,
            v.messageTypes[resp.kind := KindCount(v.messageTypes, resp.kind) + 1],
            if resp.kind == "JOIN" then v.users + {resp.user} else v.users)
  }

  function RunningOver(hs: seq<Heard>): Running {
    if hs == [] then Running(0, 0, [], map[], {}) else Updated(RunningOver(hs[..|hs| - 1]), hs[|hs| - 1])
  }

  lemma {:induction false} RunningAccumulates(hs: seq<Heard>)
    ensures Accumulated(RunningOver(hs), hs)
  {
    if hs != [] {
      RunningAccumulates(hs[..|hs| - 1]);
      AccumulatesOne(RunningOver(hs[..|hs| - 1]), hs[..|hs| - 1], hs[|hs| - 1]);
      assert hs == hs[..|hs| - 1] + [hs[|hs| - 1]];
    }
  }

  lemma AccumulatesOne(v: Running, hs: seq<Heard>, resp: Heard)
    requires Accumulated(v, hs)
    ensures Accumulated(Updated(v, resp), hs + [resp])
  {
    assert (hs + [resp])[..|hs|] == hs;
    CountsOne(v.messageTypes, hs, resp);
    if resp.latency.Some? { assert (v.latencies + [resp.latency.value])[..|v.latencies|] == v.latencies; }
  }

  /** What the reader of one connection accumulates. */
  class Timings {
    const roomId: string
    const userId: string
    var received: nat
    var totalLatency: int
    var latencies: seq<int>
    var messageTypes: Kinds
    var usersSeenSending: set<string>
    ghost var heard: seq<Heard>

    ghost predicate Valid()
      reads this
    {
      View() == RunningOver(heard)
    }

    ghost function View(): Running
      reads this
    {
      Running(received, totalLatency, latencies, messageTypes, usersSeenSending)
    }

    constructor (roomId: string, userId: string)
      ensures Valid() && heard == [] && this.roomId == roomId && this.userId == userId
    {
      this.roomId, this.userId := roomId, userId;
      received, totalLatency, latencies, messageTypes, usersSeenSending, heard := 0, 0, [], map[], {}, [];
    }

    /** One response; last says that it is the echo of the user's own LEAVE. */
    method Receive(resp: Heard) returns (last: bool)
      requires Valid()
      modifies this
      ensures Valid() && heard == old(heard) + [resp]
      ensures last <==> resp.kind == "LEAVE" && resp.user == userId
    {
      received := received + 1;
      messageTypes := messageTypes[resp.kind := KindCount(messageTypes, resp.kind) + 1];
      if resp.kind == "JOIN" {
        usersSeenSending := usersSeenSending + {resp.user};
      }
      if resp.latency.Some? {
        latencies := latencies + [resp.latency.value];
        totalLatency := totalLatency + resp.latency.value;
      }
      last := resp.kind == "LEAVE" && resp.user == userId;
      assert (heard + [resp])[..|heard|] == heard;
      heard := heard + [resp];
    }

    /** sendStats: sorts the samples in place and reports, unless there are none. */
    method SendStats() returns (stats: Option<RoomStats>)
      requires Valid()
      modifies this`latencies
      ensures Ascending(latencies) && multiset(latencies) == multiset(old(latencies))
      ensures stats == None <==> Latencies(heard) == []
      ensures stats.Some? ==>
        Reports(stats.value, heard) && stats.value.roomId == roomId && stats.value.userId == userId
    {
      var n := |latencies|;
      RunningAccumulates(heard);
      if n == 0 {
        return None;
      }
      FiguresDescribe(latencies);
      SortedIsAscendingPermutation(latencies);
      latencies := Sorted(latencies);
      stats := Some(RoomStats(roomId, userId, received, FiguresOf(latencies, totalLatency), messageTypes));
    }
  }

  // ------------------------------------------------------------ over all rooms

  function Means(reports: seq<RoomStats>): (r: seq<int>)
    ensures |r| == |reports| && forall i :: 0 <= i < |r| ==> r[i] == reports[i].figures.mean
  {
    seq(|reports|, i requires 0 <= i < |reports| => reports[i].figures.mean)
  }

  function OfRoom(reports: seq<RoomStats>, roomId: string): seq<RoomStats> {
    if reports == [] then []
    else
      var last := reports[|reports| - 1];
      OfRoom(reports[..|reports| - 1], roomId) + if last.roomId == roomId then [last] else []
  }

  function KindTotal(reports: seq<RoomStats>, kind: string): nat {
    if reports == [] then 0
    else KindTotal(reports[..|reports| - 1], kind) + KindCount(reports[|reports| - 1].messageTypes, kind)
  }

  /** The line printed for a room. */
  datatype RoomLine = RoomLine(users: nat, mean: int, median: int, messageTypes: Kinds)

  ghost predicate Sums(line: RoomLine, reports: seq<RoomStats>) {
    var n := |reports|;
    && n > 0 && line.users == n
    && line.mean == Quotient(Total(Means(reports)), n) && Ranks(Means(reports), line.median, n / 2)
    && forall kind :: KindCount(line.messageTypes, kind) == KindTotal(reports, kind)
  }

  lemma MeansSnoc(reports: seq<RoomStats>, i: nat)
    requires i < |reports|
    ensures Means(reports[..i + 1]) == Means(reports[..i]) + [reports[i].figures.mean]
  {}

  method SumUp(s: seq<int>) returns (total: int)
    ensures total == Total(s)
  {
    total := 0;
    for i := 0 to |s|
      invariant total == Total(s[..i])
    {
      assert s[..i + 1][..i] == s[..i];
      total := total + s[i];
    }
    assert s[..|s|] == s;
  }

  /** The inner loop over one report's message types. */
  method AddKinds(total: Kinds, more: Kinds) returns (sum: Kinds)
    ensures forall kind :: KindCount(sum, kind) == KindCount(total, kind) + KindCount(more, kind)
  {
    sum := total;
    var left := more;
    while left != map[]
      invariant left.Keys <= more.Keys && forall kind :: kind in left ==> left[kind] == more[kind]
      invariant forall kind ::
        KindCount(sum, kind) + KindCount(left, kind) == KindCount(total, kind) + KindCount(more, kind)
      decreases left.Keys
    {
      var kind :| kind in left;
      sum := sum[kind := KindCount(sum, kind) + left[kind]];
      left := left - {kind};
    }
  }

  method RoomSummary(stats: seq<RoomStats>) returns (line: RoomLine)
    requires stats != []
    ensures Sums(line, stats)
  {
    var roomLatencies: seq<int> := [];
    var totalMsgTypes: Kinds := map[];
    for i := 0 to |stats|
      invariant roomLatencies == Means(stats[..i])
      invariant forall kind :: KindCount(totalMsgTypes, kind) == KindTotal(stats[..i], kind)
    {
      MeansSnoc(stats, i);
      roomLatencies := roomLatencies + [stats[i].figures.mean];
      totalMsgTypes := AddKinds(totalMsgTypes, stats[i].messageTypes);
      assert stats[..i + 1][..i] == stats[..i];
    }
    assert stats[..|stats|] == stats;
    var rn := |roomLatencies|;
    SortedRanks(roomLatencies, rn / 2);
    SortedIsAscendingPermutation(roomLatencies);
    TotalPermuted(Sorted(roomLatencies), roomLatencies);
    var total := SumUp(Sorted(roomLatencies));
    line := RoomLine(rn, Quotient(total, rn), Sorted(roomLatencies)[rn / 2], totalMsgTypes);
  }

  ghost predicate Grouped(byRoom: map<string, seq<RoomStats>>, reports: seq<RoomStats>) {
    forall room ::
      && (room in byRoom <==> OfRoom(reports, room) != [])
      && (room in byRoom ==> byRoom[room] == OfRoom(reports, room))
  }

  lemma GroupedSnoc(byRoom: map<string, seq<RoomStats>>, reports: seq<RoomStats>, rs: RoomStats)
    requires Grouped(byRoom, reports)
    ensures Grouped(byRoom[rs.roomId := (if rs.roomId in byRoom then byRoom[rs.roomId] else []) + [rs]], reports + [rs])
  {
    assert (reports + [rs])[..|reports|] == reports;
  }

  /** GetOverAllStats over the reports drained from the channel: the figures of
      all the connections' means, and a line per room. */
  method GetOverAllStats(reports: seq<RoomStats>) returns (overall: Option<Figures>, lines: map<string, RoomLine>)
    ensures overall == None <==> reports == []
    ensures overall.Some? ==> Describes(overall.value, Means(reports))
    ensures forall room :: room in lines <==> OfRoom(reports, room) != []
    ensures forall room :: room in lines ==> Sums(lines[room], OfRoom(reports, room))
  {
    var byRoom, allLatencies := Collect(reports);
    if |allLatencies| == 0 {
      return None, map[];
    }
    FiguresDescribe(allLatencies);
    SortedIsAscendingPermutation(allLatencies);
    TotalPermuted(Sorted(allLatencies), allLatencies);
    var totalLatency := SumUp(Sorted(allLatencies));
    overall := Some(FiguresOf(Sorted(allLatencies), totalLatency));
    lines := RoomLines(byRoom, reports);
  }

  /** The loop over the rooms. */
  method RoomLines(byRoom: map<string, seq<RoomStats>>, ghost reports: seq<RoomStats>)
      returns (lines: map<string, RoomLine>)
    requires Grouped(byRoom, reports)
    ensures lines.Keys == byRoom.Keys
    ensures forall room :: room in lines ==> Sums(lines[room], OfRoom(reports, room))
  {
    lines := map[];
    var left := byRoom.Keys;
    while left != {}
      invariant left <= byRoom.Keys && lines.Keys == byRoom.Keys - left
      invariant forall room :: room in lines ==> Sums(lines[room], OfRoom(reports, room))
      decreases left
    {
      var room :| room in left;
      var line := RoomSummary(byRoom[room]);
      lines := lines[room := line];
      left := left - {room};
    }
  }

  /** The loop that drains the channel. */
  method Collect(reports: seq<RoomStats>) returns (byRoom: map<string, seq<RoomStats>>, allLatencies: seq<int>)
    ensures Grouped(byRoom, reports) && allLatencies == Means(reports)
  {
    byRoom, allLatencies := map[], [];
    for i := 0 to |reports|
      invariant Grouped(byRoom, reports[..i]) && allLatencies == Means(reports[..i])
    {
      var rs := reports[i];
      MeansSnoc(reports, i);
      GroupedSnoc(byRoom, reports[..i], rs);
      assert reports[..i + 1] == reports[..i] + [rs];
      byRoom := byRoom[rs.roomId := (if rs.roomId in byRoom then byRoom[rs.roomId] else []) + [rs]];
      allLatencies := allLatencies + [rs.figures.mean];
    }
    assert reports[..|reports|] == reports;
  }

  lemma {:induction false} TotalConcat(s: seq<int>, t: seq<int>)
    ensures Total(s + t) == Total(s) + Total(t)
  {
    if t == [] {
      assert s + t == s;
    } else {
      assert (s + t)[..|s + t| - 1] == s + t[..|t| - 1];
      TotalConcat(s, t[..|t| - 1]);
    }
  }

  lemma {:induction false} TotalPermuted(s: seq<int>, t: seq<int>)
    requires multiset(s) == multiset(t)
    ensures Total(s) == Total(t)
    decreases |s|
  {
    if s == [] {
      assert |multiset(t)| == 0;
    } else {
      var before, after := TakeOut(s, t);
      TotalPermuted(s[1..], before + after);
      assert s == [s[0]] + s[1..];
      TotalConcat([s[0]], s[1..]);
      TotalConcat(before, [s[0]] + after);
      TotalConcat([s[0]], after);
      TotalConcat(before, after);
    }
  }

  /** The overall figures stay within the bounds of all the samples behind the
      reports. */
  lemma OverallWithinSamples(reports: seq<RoomStats>, heard: seq<seq<Heard>>, overall: Figures, lo: int, hi: int)
    requires |heard| == |reports| && forall i :: 0 <= i < |reports| ==> Reports(reports[i], heard[i])
    requires forall i, x :: 0 <= i < |heard| && x in Latencies(heard[i]) ==> lo <= x <= hi
    requires Describes(overall, Means(reports))
    ensures lo <= overall.min <= overall.median <= overall.p95 <= overall.p99 <= overall.max <= hi
    ensures lo <= overall.mean <= hi
  {
    FiguresMakeSense(overall, Means(reports));
    forall x | x in Means(reports) ensures lo <= x <= hi {
      var i :| 0 <= i < |reports| && reports[i].figures.mean == x;
      FiguresMakeSense(reports[i].figures, Latencies(heard[i]));
    }
  }
}
