/** The publish side of one server: publishChan, its workers behind the circuit
    breaker, tempBuffer, and the watcher that drains tempBuffer back into
    publishChan after a reconnection. */
module Pipeline {
  import opened RoomProtocol

  type Msg = QueueMessage

  datatype Worker = Idle | Busy(msg: Msg) | Gone

  datatype Drain =
    | Watching                  // waiting for a connection state change
    | AwaitingClosed            // connection open, breaker not yet closed
    | Draining                  // about to take from tempBuffer, or to find it empty
    | Carrying(msg: Msg)        // inside Publish with a message from tempBuffer
    | Stopped

  datatype PipeHistory = PipeHistory(
    handed: seq<Msg>,           // every message a handler handed to Publish, once its call returned
    published: seq<Msg>,        // AMQP publish reported success
    failed: seq<Msg>,           // AMQP publish reported an error other than a refusal
    unencodable: seq<Msg>,
    droppedMsgs: seq<Msg>,      // counted by droppedMessages
    entered: seq<Msg>,          // everything ever put into publishChan, in order
    attempts: seq<Msg>)         // everything the breaker let through to AMQP, in order

  datatype Pipe = Pipe(
    chanCap: nat,
    tempCap: nat,
    queue: seq<Msg>,            // publishChan
    temp: seq<Msg>,             // tempBuffer
    workers: seq<Worker>,
    drain: Drain,
    dropped: nat,               // droppedMessages
    cancelled: bool,
    h: PipeHistory)

  function NewPipe(chanCap: nat, tempCap: nat, workers: nat): Pipe {
    Pipe(chanCap, tempCap, [], [], seq(workers, _ => Idle), Watching, 0, false,
         PipeHistory([], [], [], [], [], [], []))
  }

  datatype PipeAction =
    | Hand(m: Msg)              // a handler's Publish found room
    | HandCancelled(m: Msg)     // a handler's Publish saw its context cancelled
    | Take(w: nat)
    | Unencodable(w: nat)
    | Attempt(w: nat, ok: bool) // the breaker runs the publish function, once
    | Refuse(w: nat)            // the breaker refuses: re-buffer or drop
    | Leave(w: nat)
    | ConnectionOpen
    | BreakerClosed
    | DrainTake
    | DrainPut
    | DrainPutCancelled
    | DrainDone
    | DrainStop
    | CancelAll

  predicate HasRoom(p: Pipe) { |p.queue| < p.chanCap }

  predicate BusyAt(p: Pipe, w: nat) { w < |p.workers| && p.workers[w].Busy? }

  predicate PipeEnabled(p: Pipe, a: PipeAction) {
    match a
    case Hand(_) => HasRoom(p)
    case HandCancelled(_) => true
    case Take(w) => w < |p.workers| && p.workers[w].Idle? && p.queue != []
    case Unencodable(w) => BusyAt(p, w)
    case Attempt(w, _) => BusyAt(p, w)
    case Refuse(w) => BusyAt(p, w)
    case Leave(w) => w < |p.workers| && p.workers[w].Idle? && p.cancelled
    case ConnectionOpen => p.drain.Watching?
    case BreakerClosed => p.drain.AwaitingClosed?
    case DrainTake => p.drain.Draining? && p.temp != []
    case DrainPut => p.drain.Carrying? && HasRoom(p)
    case DrainPutCancelled => p.drain.Carrying? && p.cancelled
    case DrainDone => p.drain.Draining? && p.temp == []
    case DrainStop => (p.drain.Watching? || p.drain.AwaitingClosed?) && p.cancelled
    case CancelAll => true
  }

  function Put(p: Pipe, m: Msg): Pipe {
    p.(queue := p.queue + [m], h := p.h.(entered := p.h.entered + [m]))
  }

  function Drop(p: Pipe, m: Msg): Pipe {
    p.(dropped := p.dropped + 1, h := p.h.(droppedMsgs := p.h.droppedMsgs + [m]))
  }

  function Free(p: Pipe, w: nat): Pipe
    requires w < |p.workers|
  {
    p.(workers := p.workers[w := Idle])
  }

  /** publishDirect when the breaker refuses. */
  function Rebuffer(p: Pipe, m: Msg): Pipe {
    if |p.temp| < p.tempCap then p.(temp := p.temp + [m]) else Drop(p, m)
  }

  function PipeNext(p: Pipe, a: PipeAction): Pipe
    requires PipeEnabled(p, a)
  {
    match a
    case Hand(m) => Put(p, m).(h := Put(p, m).h.(handed := p.h.handed + [m]))
    case HandCancelled(m) => Drop(p, m).(h := Drop(p, m).h.(handed := p.h.handed + [m]))
    case Take(w) => p.(queue := p.queue[1..], workers := p.workers[w := Busy(p.queue[0])])
    case Unencodable(w) => Free(p, w).(h := p.h.(unencodable := p.h.unencodable + [p.workers[w].msg]))
    case Attempt(w, ok) =>
      var m := p.workers[w].msg;
      Free(p, w).(h := p.h.(attempts := p.h.attempts + [m],
                            published := if ok then p.h.published + [m] else p.h.published,
                            failed := if ok then p.h.failed else p.h.failed + [m]))
    case Refuse(w) => Rebuffer(Free(p, w), p.workers[w].msg)
    case Leave(w) => p.(workers := p.workers[w := Gone])
    case ConnectionOpen => p.(drain := AwaitingClosed)
    case BreakerClosed => p.(drain := Draining)
    case DrainTake => p.(temp := p.temp[1..], drain := Carrying(p.temp[0]))
    case DrainPut => Put(p, p.drain.msg).(drain := Draining)
    case DrainPutCancelled => Drop(p, p.drain.msg).(drain := Draining)
    case DrainDone => p.(drain := Watching)
    case DrainStop => p.(drain := Drain.Stopped)
    case CancelAll => p.(cancelled := true)
  }

  ghost predicate PipeRun(p: Pipe, acts: seq<PipeAction>, q: Pipe)
    decreases |acts|
  {
    if acts == [] then p == q
    else PipeEnabled(p, acts[0]) && PipeRun(PipeNext(p, acts[0]), acts[1..], q)
  }

  // ------------------------------------------------------------ where things are

  function Copies(s: seq<Msg>, m: Msg): nat { multiset(s)[m] }

  function InHand(v: Worker, m: Msg): nat { if v == Busy(m) then 1 else 0 }

  function InHands(ws: seq<Worker>, m: Msg): nat {
    if ws == [] then 0 else InHands(ws[..|ws| - 1], m) + InHand(ws[|ws| - 1], m)
  }

  /** Copies of m handed to Publish whose fate is still open. */
  function InFlight(p: Pipe, m: Msg): nat {
    Copies(p.queue, m) + InHands(p.workers, m) + Copies(p.temp, m) + if p.drain == Carrying(m) then 1 else 0
  }

  /** Copies of m that have met one of the four ends. */
  function Ended(p: Pipe, m: Msg): nat {
    Copies(p.h.published, m) + Copies(p.h.failed, m) + Copies(p.h.unencodable, m) + Copies(p.h.droppedMsgs, m)
  }

  lemma {:induction false} InHandsUpdate(ws: seq<Worker>, w: nat, v: Worker, m: Msg)
    requires w < |ws|
    ensures InHands(ws[w := v], m) == InHands(ws, m) - InHand(ws[w], m) + InHand(v, m)
  {
    var n := |ws| - 1;
    if w == n {
      assert ws[w := v][..n] == ws[..n];
    } else {
      assert ws[w := v][..n] == ws[..n][w := v];
      InHandsUpdate(ws[..n], w, v, m);
    }
  }

  lemma {:induction false} NoneInHands(ws: seq<Worker>, m: Msg)
    requires forall i :: 0 <= i < |ws| ==> ws[i] == Idle
    ensures InHands(ws, m) == 0
  {
    if ws != [] { NoneInHands(ws[..|ws| - 1], m); }
  }

  /** Every message handed over is in exactly one place, counted with its
      multiplicity. */
  ghost predicate Conserved(p: Pipe) {
    forall m :: Copies(p.h.handed, m) == InFlight(p, m) + Ended(p, m)
  }

  function BusyCount(ws: seq<Worker>): (n: nat)
    ensures n <= |ws|
  {
    if ws == [] then 0 else BusyCount(ws[..|ws| - 1]) + if ws[|ws| - 1].Busy? then 1 else 0
  }

  lemma {:induction false} BusyCountUpdate(ws: seq<Worker>, w: nat, v: Worker)
    requires w < |ws|
    ensures BusyCount(ws[w := v]) == BusyCount(ws) - (if ws[w].Busy? then 1 else 0) + (if v.Busy? then 1 else 0)
  {
    var n := |ws| - 1;
    if w == n {
      assert ws[w := v][..n] == ws[..n];
    } else {
      assert ws[w := v][..n] == ws[..n][w := v];
      BusyCountUpdate(ws[..n], w, v);
    }
  }

  function Outstanding(p: Pipe): nat {
    |p.queue| + BusyCount(p.workers) + |p.temp| + if p.drain.Carrying? then 1 else 0
  }

  /** Attempts are what was published or failed. */
  ghost predicate AttemptsOk(p: Pipe) {
    forall m :: Copies(p.h.attempts, m) == Copies(p.h.published, m) + Copies(p.h.failed, m)
  }

  lemma AttemptsOkKept(p: Pipe, a: PipeAction)
    requires AttemptsOk(p) && PipeEnabled(p, a)
    ensures AttemptsOk(PipeNext(p, a))
  {
    if a.Attempt? {
      var x := p.workers[a.w].msg;
      forall m ensures Copies(PipeNext(p, a).h.attempts, m)
        == Copies(PipeNext(p, a).h.published, m) + Copies(PipeNext(p, a).h.failed, m)
      {
        CopiesSnoc(p.h.attempts, x, m);
        CopiesSnoc(p.h.published, x, m);
        CopiesSnoc(p.h.failed, x, m);
      }
    }
  }

  /** Dropping is counted; totals agree; no queue overflows. */
  ghost predicate Accounted(p: Pipe) {
    && |p.h.handed| == Outstanding(p) + |p.h.published| + |p.h.failed| + |p.h.unencodable| + p.dropped
    && p.dropped == |p.h.droppedMsgs|
    && |p.queue| <= p.chanCap && |p.temp| <= p.tempCap
  }

  ghost predicate PipeOk(p: Pipe) { Conserved(p) && AttemptsOk(p) && Accounted(p) }

  lemma FreeAccounted(p: Pipe, a: PipeAction)
    requires Accounted(p) && PipeEnabled(p, a) && (a.Unencodable? || a.Attempt? || a.Refuse?)
    ensures Accounted(PipeNext(p, a))
  {
    BusyCountUpdate(p.workers, a.w, Idle);
  }

  lemma MoveAccounted(p: Pipe, a: PipeAction)
    requires Accounted(p) && PipeEnabled(p, a) && !(a.Unencodable? || a.Attempt? || a.Refuse?)
    ensures Accounted(PipeNext(p, a))
  {
    if a.Take? {
      BusyCountUpdate(p.workers, a.w, Busy(p.queue[0]));
    } else if a.Leave? {
      BusyCountUpdate(p.workers, a.w, Gone);
    }
  }

  lemma AccountedKept(p: Pipe, a: PipeAction)
    requires Accounted(p) && PipeEnabled(p, a)
    ensures Accounted(PipeNext(p, a))
  {
    if a.Unencodable? || a.Attempt? || a.Refuse? { FreeAccounted(p, a); } else { MoveAccounted(p, a); }
  }

  lemma CopiesSnoc(s: seq<Msg>, x: Msg, m: Msg)
    ensures Copies(s + [x], m) == Copies(s, m) + if m == x then 1 else 0
  {}

  lemma CopiesHead(s: seq<Msg>, m: Msg)
    requires s != []
    ensures Copies(s[1..], m) == Copies(s, m) - if m == s[0] then 1 else 0
  {
    assert s == [s[0]] + s[1..];
  }

  /** A worker is done with its message in one of three ways. */
  lemma UnencodableConserves(p: Pipe, w: nat, m: Msg)
    requires BusyAt(p, w)
    ensures var q := PipeNext(p, Unencodable(w)); InFlight(q, m) + Ended(q, m) == InFlight(p, m) + Ended(p, m)
  {
    InHandsUpdate(p.workers, w, Idle, m);
    CopiesSnoc(p.h.unencodable, p.workers[w].msg, m);
  }

  lemma AttemptConserves(p: Pipe, w: nat, ok: bool, m: Msg)
    requires BusyAt(p, w)
    ensures var q := PipeNext(p, Attempt(w, ok)); InFlight(q, m) + Ended(q, m) == InFlight(p, m) + Ended(p, m)
  {
    InHandsUpdate(p.workers, w, Idle, m);
    CopiesSnoc(p.h.published, p.workers[w].msg, m);
    CopiesSnoc(p.h.failed, p.workers[w].msg, m);
  }

  lemma RefuseConserves(p: Pipe, w: nat, m: Msg)
    requires BusyAt(p, w)
    ensures var q := PipeNext(p, Refuse(w)); InFlight(q, m) + Ended(q, m) == InFlight(p, m) + Ended(p, m)
  {
    InHandsUpdate(p.workers, w, Idle, m);
    RebufferConserves(Free(p, w), p.workers[w].msg, m);
  }

  /** Re-buffering puts a message where it is counted once more. */
  lemma RebufferConserves(p: Pipe, x: Msg, m: Msg)
    ensures var q := Rebuffer(p, x);
      InFlight(q, m) + Ended(q, m) == InFlight(p, m) + Ended(p, m) + if m == x then 1 else 0
  {
    CopiesSnoc(p.temp, x, m);
    CopiesSnoc(p.h.droppedMsgs, x, m);
  }

  lemma MoveConserves(p: Pipe, a: PipeAction, m: Msg)
    requires PipeEnabled(p, a) && (a.Take? || a.Leave? || a.DrainTake? || a.DrainPut? || a.DrainPutCancelled?)
    ensures var q := PipeNext(p, a); InFlight(q, m) + Ended(q, m) == InFlight(p, m) + Ended(p, m)
  {
    if a.Take? {
      TakeConserves(p, a.w, m);
    } else if a.Leave? {
      InHandsUpdate(p.workers, a.w, Gone, m);
    } else {
      DrainConserves(p, a, m);
    }
  }

  lemma TakeConserves(p: Pipe, w: nat, m: Msg)
    requires PipeEnabled(p, Take(w))
    ensures var q := PipeNext(p, Take(w)); InFlight(q, m) + Ended(q, m) == InFlight(p, m) + Ended(p, m)
  {
    InHandsUpdate(p.workers, w, Busy(p.queue[0]), m);
    CopiesHead(p.queue, m);
  }

  lemma DrainConserves(p: Pipe, a: PipeAction, m: Msg)
    requires PipeEnabled(p, a) && (a.DrainTake? || a.DrainPut? || a.DrainPutCancelled?)
    ensures var q := PipeNext(p, a); InFlight(q, m) + Ended(q, m) == InFlight(p, m) + Ended(p, m)
  {
    if a.DrainTake? {
      CopiesHead(p.temp, m);
    } else if a.DrainPut? {
      CopiesSnoc(p.queue, p.drain.msg, m);
    } else {
      CopiesSnoc(p.h.droppedMsgs, p.drain.msg, m);
    }
  }

  lemma HandConserves(p: Pipe, a: PipeAction, m: Msg)
    requires PipeEnabled(p, a) && (a.Hand? || a.HandCancelled?)
    ensures var q := PipeNext(p, a);
      InFlight(q, m) + Ended(q, m) - Copies(q.h.handed, m) == InFlight(p, m) + Ended(p, m) - Copies(p.h.handed, m)
  {}

  lemma ConservedKept(p: Pipe, a: PipeAction)
    requires Conserved(p) && PipeEnabled(p, a)
    ensures Conserved(PipeNext(p, a))
  {
    var q := PipeNext(p, a);
    forall m ensures Copies(q.h.handed, m) == InFlight(q, m) + Ended(q, m) {
      assert Copies(p.h.handed, m) == InFlight(p, m) + Ended(p, m);
      StepConserves(p, a, m);
    }
  }

  lemma StepConserves(p: Pipe, a: PipeAction, m: Msg)
    requires PipeEnabled(p, a)
    ensures var q := PipeNext(p, a);
      InFlight(q, m) + Ended(q, m) - Copies(q.h.handed, m) == InFlight(p, m) + Ended(p, m) - Copies(p.h.handed, m)
  {
    if a.Hand? || a.HandCancelled? {
      HandConserves(p, a, m);
    } else if a.Unencodable? || a.Attempt? || a.Refuse? {
      EndConserves(p, a, m);
    } else if a.Take? || a.Leave? || a.DrainTake? || a.DrainPut? || a.DrainPutCancelled? {
      MoveConserves(p, a, m);
    }
  }

  /** A worker is done with its message. */
  lemma EndConserves(p: Pipe, a: PipeAction, m: Msg)
    requires PipeEnabled(p, a) && (a.Unencodable? || a.Attempt? || a.Refuse?)
    ensures var q := PipeNext(p, a); InFlight(q, m) + Ended(q, m) == InFlight(p, m) + Ended(p, m)
  {
    if a.Unencodable? {
      UnencodableConserves(p, a.w, m);
    } else if a.Attempt? {
      AttemptConserves(p, a.w, a.ok, m);
    } else {
      RefuseConserves(p, a.w, m);
    }
  }

  lemma {:induction false} PipeOkAlways(p: Pipe, acts: seq<PipeAction>, q: Pipe)
    requires PipeOk(p) && PipeRun(p, acts, q)
    ensures PipeOk(q)
    decreases |acts|
  {
    if acts != [] {
      ConservedKept(p, acts[0]);
      AttemptsOkKept(p, acts[0]);
      AccountedKept(p, acts[0]);
      PipeOkAlways(PipeNext(p, acts[0]), acts[1..], q);
    }
  }

  lemma {:induction false} NoneBusy(ws: seq<Worker>)
    requires forall i :: 0 <= i < |ws| ==> ws[i] == Idle
    ensures BusyCount(ws) == 0
  {
    if ws != [] { NoneBusy(ws[..|ws| - 1]); }
  }

  lemma NewPipeOk(chanCap: nat, tempCap: nat, workers: nat)
    ensures PipeOk(NewPipe(chanCap, tempCap, workers))
  {
    var p := NewPipe(chanCap, tempCap, workers);
    NoneBusy(p.workers);
    forall m ensures Copies(p.h.handed, m) == InFlight(p, m) + Ended(p, m) { NoneInHands(p.workers, m); }
  }

  // ------------------------------------------------------------- main results

  /** Linearity: every message is in exactly one place; completed calls are in
      flight, published, failed, unencodable or counted as dropped; and a
      message handed over once meets at most one AMQP attempt, however often it
      is re-buffered and drained. */
  lemma PipelineLinearity(chanCap: nat, tempCap: nat, workers: nat, acts: seq<PipeAction>, p: Pipe, m: Msg)
    requires PipeRun(NewPipe(chanCap, tempCap, workers), acts, p)
    ensures Copies(p.h.handed, m) == InFlight(p, m) + Ended(p, m)
    ensures |p.h.handed| == Outstanding(p) + |p.h.published| + |p.h.failed| + |p.h.unencodable| + p.dropped
    ensures Copies(p.h.attempts, m) == Copies(p.h.published, m) + Copies(p.h.failed, m)
    ensures Copies(p.h.handed, m) <= 1 ==> Copies(p.h.attempts, m) + InFlight(p, m) <= 1
  {
    NewPipeOk(chanCap, tempCap, workers);
    PipeOkAlways(NewPipe(chanCap, tempCap, workers), acts, p);
  }

  lemma {:induction false} SizesKept(p: Pipe, acts: seq<PipeAction>, q: Pipe)
    requires PipeRun(p, acts, q)
    ensures q.chanCap == p.chanCap && q.tempCap == p.tempCap && |q.workers| == |p.workers|
    decreases |acts|
  {
    if acts != [] { SizesKept(PipeNext(p, acts[0]), acts[1..], q); }
  }

  /** What is outstanding, not counting callers still blocked in Publish. */
  lemma OutstandingIsBounded(chanCap: nat, tempCap: nat, workers: nat, acts: seq<PipeAction>, p: Pipe)
    requires PipeRun(NewPipe(chanCap, tempCap, workers), acts, p)
    ensures Outstanding(p) <= chanCap + workers + tempCap + 1
  {
    NewPipeOk(chanCap, tempCap, workers);
    PipeOkAlways(NewPipe(chanCap, tempCap, workers), acts, p);
    SizesKept(NewPipe(chanCap, tempCap, workers), acts, p);
  }

  /** The cycle never wedges: with one worker alive, that worker alone can make
      room in publishChan in at most two steps, whatever becomes of the message
      in its hand (unencodable, refused, published or failed) and however full
      tempBuffer is. */
  lemma NeverWedges(p: Pipe, w: nat, o: Outcome) returns (acts: seq<PipeAction>, q: Pipe)
    requires Accounted(p) && w < |p.workers| && !p.workers[w].Gone? && p.chanCap > 0
    ensures PipeRun(p, acts, q) && HasRoom(q) && |acts| <= 2
    ensures forall i :: 0 <= i < |acts| ==> acts[i] in [Take(w), OutcomeAction(w, o)]
  {
    var finish := OutcomeAction(w, o);
    var p1, first := p, [];
    if p.workers[w].Busy? {
      p1, first := PipeNext(p, finish), [finish];
      OneStepRuns(p, finish);
    }
    if HasRoom(p1) {
      acts, q := first, p1;
    } else {
      acts, q := first + [Take(w)], PipeNext(p1, Take(w));
      PipeRunSnoc(p, first, p1, Take(w));
    }
  }

  lemma OneStepRuns(p: Pipe, a: PipeAction)
    requires PipeEnabled(p, a)
    ensures PipeRun(p, [a], PipeNext(p, a))
  {
    assert PipeRun(PipeNext(p, a), [], PipeNext(p, a)) && [a][1..] == [];
  }

  function CarriedBy(d: Drain): seq<Msg> { if d.Carrying? then [d.msg] else [] }

  /** c is a and b shuffled together, each keeping its own order. */
  ghost predicate Interleaves(c: seq<Msg>, a: seq<Msg>, b: seq<Msg>)
    decreases |c|
  {
    if c == [] then a == [] && b == []
    else
      || (a != [] && a[0] == c[0] && Interleaves(c[1..], a[1..], b))
      || (b != [] && b[0] == c[0] && Interleaves(c[1..], a, b[1..]))
  }

  /** One more element in front, of either side. */
  lemma InterleavesMore(c: seq<Msg>, a: seq<Msg>, b: seq<Msg>, x: seq<Msg>, y: seq<Msg>)
    requires Interleaves(c, a, b) && |x| + |y| <= 1
    ensures Interleaves(x + y + c, x + a, y + b)
  {
    if |x| == 1 {
      assert (x + y + c)[1..] == c && (x + a)[1..] == a && y + b == b;
    } else if |y| == 1 {
      assert (x + y + c)[1..] == c && (y + b)[1..] == b && x + a == a;
    } else {
      assert x + y + c == c && x + a == a && y + b == b;
    }
  }

  lemma {:induction false} OneSided(c: seq<Msg>, a: seq<Msg>)
    requires Interleaves(c, a, [])
    ensures c == a
    decreases |c|
  {
    if c != [] { OneSided(c[1..], a[1..]); }
  }

  function HandedAt(a: PipeAction): seq<Msg> { if a.Hand? then [a.m] else [] }

  /** What the handlers' Publish calls put into publishChan in a run. */
  function HandedIn(acts: seq<PipeAction>): seq<Msg> {
    if acts == [] then [] else HandedAt(acts[0]) + HandedIn(acts[1..])
  }

  function RebufferedAt(p: Pipe, a: PipeAction): seq<Msg> {
    if a.Refuse? && BusyAt(p, a.w) && |p.temp| < p.tempCap then [p.workers[a.w].msg] else []
  }

  /** What refusals add to tempBuffer in a run. */
  function RebufferedIn(p: Pipe, acts: seq<PipeAction>): seq<Msg>
    decreases |acts|
  {
    if acts == [] || !PipeEnabled(p, acts[0]) then []
    else RebufferedAt(p, acts[0]) + RebufferedIn(PipeNext(p, acts[0]), acts[1..])
  }

  function AbandonedAt(p: Pipe, a: PipeAction): seq<Msg> {
    if a.DrainPutCancelled? && p.drain.Carrying? then [p.drain.msg] else []
  }

  /** What the drain gives up, its context cancelled, in a run. */
  function AbandonedIn(p: Pipe, acts: seq<PipeAction>): seq<Msg>
    decreases |acts|
  {
    if acts == [] || !PipeEnabled(p, acts[0]) then []
    else AbandonedAt(p, acts[0]) + AbandonedIn(PipeNext(p, acts[0]), acts[1..])
  }

  function PutAt(p: Pipe, a: PipeAction): seq<Msg> {
    if a.DrainPut? && p.drain.Carrying? then [p.drain.msg] else []
  }

  /** tempBuffer, behind what the drain has already taken from it. */
  function Backlog(p: Pipe): seq<Msg> { CarriedBy(p.drain) + p.temp }

  lemma BacklogStep(p: Pipe, a: PipeAction)
    requires PipeEnabled(p, a)
    ensures Backlog(p) + RebufferedAt(p, a) == PutAt(p, a) + AbandonedAt(p, a) + Backlog(PipeNext(p, a))
  {
    if a.Refuse? {
      RefuseBacklog(p, a.w);
    } else if a.DrainTake? {
      TakeBacklog(p);
    } else if a.DrainPut? || a.DrainPutCancelled? {
      PutBacklog(p, a);
    } else {
      SameBacklog(p, a);
      assert Backlog(p) + [] == Backlog(p) && [] + [] + Backlog(p) == Backlog(p);
    }
  }

  lemma RefuseBacklog(p: Pipe, w: nat)
    requires BusyAt(p, w)
    ensures Backlog(p) + RebufferedAt(p, Refuse(w)) == [] + [] + Backlog(PipeNext(p, Refuse(w)))
  {
    var added := RebufferedAt(p, Refuse(w));
    assert CarriedBy(p.drain) + p.temp + added == CarriedBy(p.drain) + (p.temp + added);
  }

  lemma TakeBacklog(p: Pipe)
    requires PipeEnabled(p, DrainTake)
    ensures Backlog(p) + [] == [] + [] + Backlog(PipeNext(p, DrainTake))
  {
    assert p.temp == [p.temp[0]] + p.temp[1..];
  }

  lemma PutBacklog(p: Pipe, a: PipeAction)
    requires PipeEnabled(p, a) && (a.DrainPut? || a.DrainPutCancelled?)
    ensures Backlog(p) + [] == PutAt(p, a) + AbandonedAt(p, a) + Backlog(PipeNext(p, a))
  {}

  lemma SameBacklog(p: Pipe, a: PipeAction)
    requires PipeEnabled(p, a) && !a.Refuse? && !a.DrainTake? && !a.DrainPut? && !a.DrainPutCancelled?
    ensures CarriedBy(PipeNext(p, a).drain) == CarriedBy(p.drain) && PipeNext(p, a).temp == p.temp
  {}

  lemma EnteredStep(p: Pipe, a: PipeAction)
    requires PipeEnabled(p, a)
    ensures PipeNext(p, a).h.entered == p.h.entered + (PutAt(p, a) + HandedAt(a))
  {}

  /** What a run does to the drain's backlog and to publishChan: left goes out
      of the one, news into the other. */
  datatype Flow = Flow(rebuffered: seq<Msg>, abandoned: seq<Msg>, handed: seq<Msg>,
                       left: seq<Msg>, put: seq<Msg>, news: seq<Msg>)

  ghost predicate FlowOk(f: Flow, before: seq<Msg>, after: seq<Msg>, entered: seq<Msg>, entered': seq<Msg>) {
    && before + f.rebuffered == f.left + after
    && Interleaves(f.left, f.put, f.abandoned)
    && entered' == entered + f.news && Interleaves(f.news, f.put, f.handed)
  }

  /** The flow of one step followed by that of a run. */
  function Then(rebuffered: seq<Msg>, abandoned: seq<Msg>, handed: seq<Msg>, put: seq<Msg>, f: Flow): Flow {
    Flow(rebuffered + f.rebuffered, abandoned + f.abandoned, handed + f.handed,
         put + abandoned + f.left, put + f.put, put + handed + f.news)
  }

  lemma ThenOk(rebuffered: seq<Msg>, abandoned: seq<Msg>, handed: seq<Msg>, put: seq<Msg>, f: Flow,
               b0: seq<Msg>, b1: seq<Msg>, b2: seq<Msg>, e0: seq<Msg>, e1: seq<Msg>, e2: seq<Msg>)
    requires FlowOk(f, b1, b2, e1, e2) && |put| + |abandoned| <= 1 && |put| + |handed| <= 1
    requires b0 + rebuffered == put + abandoned + b1 && e1 == e0 + (put + handed)
    ensures FlowOk(Then(rebuffered, abandoned, handed, put, f), b0, b2, e0, e2)
  {
    var out := put + abandoned;
    assert b0 + (rebuffered + f.rebuffered) == (b0 + rebuffered) + f.rebuffered;
    assert (out + b1) + f.rebuffered == out + (b1 + f.rebuffered);
    assert out + (f.left + b2) == (out + f.left) + b2;
    InterleavesMore(f.left, f.put, f.abandoned, put, abandoned);
    InterleavesMore(f.news, f.put, f.handed, put, handed);
  }

  /** The flow of a run, as its inputs and refusals make it. */
  ghost predicate FlowOf(f: Flow, p: Pipe, acts: seq<PipeAction>) {
    f.rebuffered == RebufferedIn(p, acts) && f.abandoned == AbandonedIn(p, acts) && f.handed == HandedIn(acts)
  }

  lemma FlowOfThen(f: Flow, p: Pipe, acts: seq<PipeAction>, p1: Pipe)
    requires acts != [] && PipeEnabled(p, acts[0]) && p1 == PipeNext(p, acts[0]) && FlowOf(f, p1, acts[1..])
    ensures var a := acts[0];
      FlowOf(Then(RebufferedAt(p, a), AbandonedAt(p, a), HandedAt(a), PutAt(p, a), f), p, acts)
  {}

  /** In any run, whatever else goes on: what is in tempBuffer, with what is
      re-buffered meanwhile behind it, leaves in that order; what leaves is put
      into publishChan or abandoned; and publishChan receives the drain's
      messages and the handlers' shuffled together. */
  lemma {:induction false} DrainOrder(p: Pipe, acts: seq<PipeAction>, q: Pipe) returns (f: Flow)
    requires PipeRun(p, acts, q)
    ensures FlowOf(f, p, acts) && FlowOk(f, Backlog(p), Backlog(q), p.h.entered, q.h.entered)
    decreases |acts|
  {
    if acts == [] {
      f := Flow([], [], [], [], [], []);
    } else {
      var a, p1 := acts[0], PipeNext(p, acts[0]);
      var f1 := DrainOrder(p1, acts[1..], q);
      BacklogStep(p, a);
      EnteredStep(p, a);
      f := Then(RebufferedAt(p, a), AbandonedAt(p, a), HandedAt(a), PutAt(p, a), f1);
      FlowOfThen(f1, p, acts, p1);
      ThenOk(RebufferedAt(p, a), AbandonedAt(p, a), HandedAt(a), PutAt(p, a), f1,
             Backlog(p), Backlog(p1), Backlog(q), p.h.entered, p1.h.entered, q.h.entered);
    }
  }

  /** From the start of a drain to its end, tempBuffer found empty, whatever
      happens in between: its contents, and whatever is re-buffered meanwhile,
      have entered publishChan in first-in first-out order, shuffled only with
      what handlers published, but for what was given up on cancellation. */
  lemma DrainEmpties(p: Pipe, acts: seq<PipeAction>, q: Pipe) returns (put: seq<Msg>, news: seq<Msg>)
    requires p.drain.Draining? && PipeRun(p, acts, q) && PipeEnabled(q, DrainDone)
    ensures q.temp == [] && q.h.entered == p.h.entered + news
    ensures Interleaves(p.temp + RebufferedIn(p, acts), put, AbandonedIn(p, acts))
    ensures Interleaves(news, put, HandedIn(acts))
  {
    var f := DrainOrder(p, acts, q);
    put, news := f.put, f.news;
    assert Backlog(p) == p.temp && Backlog(q) == [] && f.left + [] == f.left;
  }

  predicate Disturbs(a: PipeAction) { a.Refuse? || a.DrainPutCancelled? }

  lemma {:induction false} NothingRebuffered(p: Pipe, acts: seq<PipeAction>)
    requires forall i :: 0 <= i < |acts| ==> !Disturbs(acts[i])
    ensures RebufferedIn(p, acts) == [] && AbandonedIn(p, acts) == []
    decreases |acts|
  {
    if acts != [] && PipeEnabled(p, acts[0]) { NothingRebuffered(PipeNext(p, acts[0]), acts[1..]); }
  }

  lemma {:induction false} NothingHanded(acts: seq<PipeAction>)
    requires forall i :: 0 <= i < |acts| ==> !acts[i].Hand?
    ensures HandedIn(acts) == []
  {
    if acts != [] { NothingHanded(acts[1..]); }
  }

  /** A drain with no re-buffering and no cancellation in between, handlers
      publishing all the while, ends with tempBuffer empty and its contents in
      publishChan in their order, shuffled with what the handlers published;
      exactly its contents when they published nothing. */
  lemma DrainEmptiesInOrder(p: Pipe, acts: seq<PipeAction>, q: Pipe) returns (news: seq<Msg>)
    requires p.drain.Draining? && PipeRun(p, acts, q) && PipeEnabled(q, DrainDone)
    requires forall i :: 0 <= i < |acts| ==> !Disturbs(acts[i])
    ensures q.temp == [] && q.h.entered == p.h.entered + news
    ensures Interleaves(news, p.temp, HandedIn(acts))
    ensures (forall i :: 0 <= i < |acts| ==> !acts[i].Hand?) ==> news == p.temp
  {
    var put;
    put, news := DrainEmpties(p, acts, q);
    NothingRebuffered(p, acts);
    assert p.temp + [] == p.temp;
    OneSided(p.temp, put);
    if forall i :: 0 <= i < |acts| ==> !acts[i].Hand? {
      NothingHanded(acts);
      OneSided(news, p.temp);
    }
  }

  // ----------------------------------------------------------- the code itself

  datatype Outcome = NotEncodable | Refused | Ran(ok: bool)

  function OutcomeAction(w: nat, o: Outcome): PipeAction {
    match o
    case NotEncodable => Unencodable(w)
    case Refused => Refuse(w)
    case Ran(ok) => Attempt(w, ok)
  }

  /** The publish side as Rabbit holds it, updated in place. */
  class LivePipe {
    const chanCap: nat
    const tempCap: nat
    var publishChan: seq<Msg>
    var tempBuffer: seq<Msg>
    var workers: seq<Worker>
    var drain: Drain
    var droppedMessages: nat
    var cancelled: bool
    var h: PipeHistory

    ghost function View(): Pipe
      reads this
    {
      Pipe(chanCap, tempCap, publishChan, tempBuffer, workers, drain, droppedMessages, cancelled, h)
    }

    constructor (chanCap: nat, tempCap: nat, workers: nat)
      ensures View() == NewPipe(chanCap, tempCap, workers)
    {
      this.chanCap, this.tempCap := chanCap, tempCap;
      publishChan, tempBuffer, this.workers := [], [], seq(workers, _ => Idle);
      drain, droppedMessages, cancelled := Watching, 0, false;
      h := PipeHistory([], [], [], [], [], [], []);
    }

    /** Publish, called by a handler: it waits for one of the two cases, and
        when both are ready select picks either. */
    method Publish(m: Msg, contextDone: bool, picksSend: bool) returns (enqueued: bool)
      requires HasRoom(View()) || contextDone
      modifies this
      ensures enqueued <==> HasRoom(old(View())) && (contextDone ==> picksSend)
      ensures enqueued ==> View() == PipeNext(old(View()), Hand(m))
      ensures !enqueued ==> contextDone && View() == PipeNext(old(View()), HandCancelled(m))
    {
      enqueued := |publishChan| < chanCap && (!contextDone || picksSend);
      if enqueued {
        publishChan := publishChan + [m];
        h := h.(entered := h.entered + [m], handed := h.handed + [m]);
      } else {
        droppedMessages := droppedMessages + 1;
        h := h.(droppedMsgs := h.droppedMsgs + [m], handed := h.handed + [m]);
      }
    }

    /** publishWorker receiving from publishChan. */
    method Receive(w: nat) returns (m: Msg)
      requires PipeEnabled(View(), Take(w))
      modifies this`publishChan, this`workers
      ensures View() == PipeNext(old(View()), Take(w)) && m == old(publishChan)[0] && workers[w] == Busy(m)
    {
      m := publishChan[0];
      publishChan := publishChan[1..];
      workers := workers[w := Busy(m)];
    }

    /** publishDirect, for whatever encoding and the breaker do. */
    method PublishDirect(w: nat, m: Msg, o: Outcome)
      requires w < |workers| && workers[w] == Busy(m)
      modifies this`workers, this`tempBuffer, this`droppedMessages, this`h
      ensures View() == PipeNext(old(View()), OutcomeAction(w, o))
    {
      workers := workers[w := Idle];
      match o
      case NotEncodable => h := h.(unencodable := h.unencodable + [m]);
      case Ran(ok) =>
        h := h.(attempts := h.attempts + [m]);
        if ok {
          h := h.(published := h.published + [m]);
        } else {
          h := h.(failed := h.failed + [m]);
        }
      case Refused =>
        if |tempBuffer| < tempCap {
          tempBuffer := tempBuffer + [m];
        } else {
          droppedMessages := droppedMessages + 1;
          h := h.(droppedMsgs := h.droppedMsgs + [m]);
        }
    }

    /** The drain loop after a reconnection, publishChan being emptied by worker
        w whenever it is full, the breaker closed. */
    method DrainTempBuffer(w: nat) returns (ghost trace: seq<PipeAction>)
      requires drain.Draining? && CanTake(w)
      modifies this
      ensures PipeRun(old(View()), trace, View())
      ensures drain.Watching? && tempBuffer == []
      ensures h.entered == old(h.entered) + old(tempBuffer)
      ensures droppedMessages == old(droppedMessages) && h.handed == old(h.handed)
    {
      ghost var start := View();
      ghost var toEnter := h.entered + tempBuffer;
      ghost var handed, lost := h.handed, droppedMessages;
      trace := [];
      while tempBuffer != []
        invariant PipeRun(start, trace, View()) && drain.Draining? && CanTake(w)
        invariant h.entered + tempBuffer == toEnter
        invariant droppedMessages == lost && h.handed == handed
        decreases |tempBuffer|
      {
        trace := DrainTurn(w, start, trace);
      }
      PipeRunSnoc(start, trace, View(), DrainDone);
      trace := trace + [DrainDone];
      drain := Watching;
    }

    ghost predicate CanTake(w: nat)
      reads this
    {
      0 < chanCap && |publishChan| <= chanCap && w < |workers| && !workers[w].Gone?
    }

    /** One turn of the drain loop: the head of tempBuffer goes through Publish. */
    method DrainTurn(w: nat, ghost start: Pipe, ghost before: seq<PipeAction>) returns (ghost trace: seq<PipeAction>)
      requires PipeRun(start, before, View())
      requires drain.Draining? && CanTake(w) && tempBuffer != []
      modifies this
      ensures PipeRun(start, trace, View())
      ensures drain.Draining? && CanTake(w)
      ensures tempBuffer == old(tempBuffer)[1..] && h.entered == old(h.entered) + [old(tempBuffer)[0]]
      ensures droppedMessages == old(droppedMessages) && h.handed == old(h.handed)
    {
      PipeRunSnoc(start, before, View(), DrainTake);
      trace := before + [DrainTake];
      var m := tempBuffer[0];
      tempBuffer := tempBuffer[1..];
      drain := Carrying(m);
      trace := MakeRoom(w, start, trace);
      PipeRunSnoc(start, trace, View(), DrainPut);
      trace := trace + [DrainPut];
      publishChan := publishChan + [m];
      h := h.(entered := h.entered + [m]);
      drain := Draining;
    }

    /** Another goroutine at work while Publish blocks: worker w takes and
        publishes until there is room. */
    method MakeRoom(w: nat, ghost start: Pipe, ghost before: seq<PipeAction>) returns (ghost trace: seq<PipeAction>)
      requires PipeRun(start, before, View()) && CanTake(w)
      modifies this`publishChan, this`workers, this`tempBuffer, this`droppedMessages, this`h
      ensures PipeRun(start, trace, View())
      ensures HasRoom(View()) && CanTake(w)
      ensures tempBuffer == old(tempBuffer) && droppedMessages == old(droppedMessages)
      ensures h.entered == old(h.entered) && h.handed == old(h.handed)
    {
      trace := before;
      if |publishChan| >= chanCap {
        if workers[w].Busy? {
          PipeRunSnoc(start, trace, View(), Attempt(w, true));
          trace := trace + [Attempt(w, true)];
          PublishDirect(w, workers[w].msg, Ran(true));
        }
        PipeRunSnoc(start, trace, View(), Take(w));
        trace := trace + [Take(w)];
        var m := Receive(w);
      }
    }
  }

  lemma {:induction false} PipeRunSnoc(p: Pipe, acts: seq<PipeAction>, q: Pipe, a: PipeAction)
    requires PipeRun(p, acts, q) && PipeEnabled(q, a)
    ensures PipeRun(p, acts + [a], PipeNext(q, a))
    decreases |acts|
  {
    if acts == [] {
      assert acts + [a] == [a];
    } else {
      assert (acts + [a])[1..] == acts[1..] + [a];
      PipeRunSnoc(PipeNext(p, acts[0]), acts[1..], q, a);
    }
  }
}
