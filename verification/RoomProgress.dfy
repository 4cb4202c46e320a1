/** Nobody is stranded: once inputs stop a room settles, and in a settled room
    every handler has either departed or is still reading. The one exception
    the code leaves is a user whose id is the empty string. */
module RoomProgress {
  import opened Basics
  import opened Models
  import opened RoomProtocol
  import opened RoomSafety
  import opened RoomWindow
  import opened RoomEvolution

  /** Actions that bring something in from outside: a connection, a message or
      read error, a remote response, a cancellation. */
  predicate IsInput(a: Action) { a.Enter? || a.Hear? || a.Remote? || a.Cancel? }

  // -------------------------------------------------------------- cancellation

  /** The goroutine shuts down, and a writer stops, only after cancellation. */
  ghost predicate CancelOk(r: Room) {
    && (!Alive(r) ==> r.cancelled)
    && (forall x :: x in r.sessions && r.sessions[x].writer.Stopped? ==> r.cancelled)
  }

  lemma ScheduledOnce(r: Room, a: Action)
    requires Phases(r) && Enabled(r, a)
    ensures a.Schedule? ==> r.sessions[a.x].h.queuedAt.None?
  {
    if a.Schedule? { assert PhaseOk(r.sessions[a.x]); }
  }

  lemma CancelOkStep(r: Room, t: Room)
    requires CancelOk(r) && WritersUntouched(r, t) && (r.cancelled ==> t.cancelled)
    requires !Alive(t) ==> !Alive(r) || r.cancelled
    ensures CancelOk(t)
  {}

  lemma CancelOkWriter(r: Room, a: Action)
    requires CancelOk(r) && Enabled(r, a) && OfWriter(a)
    ensures CancelOk(Next(r, a))
  {}

  lemma CancelOkKept(r: Room, a: Action)
    requires Phases(r) && CancelOk(r) && Enabled(r, a)
    ensures CancelOk(Next(r, a))
  {
    if OfWriter(a) {
      CancelOkWriter(r, a);
    } else {
      ScheduledOnce(r, a);
      SessionsEvolve(r, a);
      CancelOkStep(r, Next(r, a));
    }
  }

  lemma {:induction false} CancelOkAlways(r: Room, acts: seq<Action>, t: Room)
    requires Safe(r) && CancelOk(r) && Run(r, acts, t)
    ensures Safe(t) && CancelOk(t)
    decreases |acts|
  {
    if acts != [] {
      SafeKept(r, acts[0]);
      CancelOkKept(r, acts[0]);
      CancelOkAlways(Next(r, acts[0]), acts[1..], t);
    }
  }

  // ------------------------------------------------------------------ measure

  /** Steps a handler still takes without further input. */
  function HandlerWork(s: Session): nat {
    match s.phase
    case Indexing => 8
    case Greeting => 7
    case Publishing(_, _) => 6
    case Scheduling => 5
    case FallingBack => 4
    case Unindexing => 3
    case Awaiting => 2
    case Reading => 1
    case Departed => 1
  }

  /** Steps a writer still takes on what is in its Send. */
  function WriterWork(s: Session): nat {
    2 * |s.send| + (if s.writer.Waiting? then 1 else if s.writer.Writing? then 2 else 0)
  }

  function LoopRank(l: Loop): nat {
    match l
    case Holding(_) => 4
    case Fanning(_, _) => 3
    case Unlisting(_) => 3
    case Selecting => 2
    case Closing(_) => 1
    case Exited => 0
  }

  function TurnsLeft(l: Loop): nat {
    if l.Fanning? then |l.pending| else if l.Closing? then |l.leftOpen| else 0
  }

  ghost function Sum(m: map<SessionId, Session>, f: Session -> nat): nat {
    if m == map[] then 0
    else
      var x :| x in m;
      f(m[x]) + Sum(m - {x}, f)
  }

  lemma {:induction false} SumRemove(m: map<SessionId, Session>, f: Session -> nat, x: SessionId)
    requires x in m
    ensures Sum(m, f) == f(m[x]) + Sum(m - {x}, f)
    decreases |m|
  {
    var y :| y in m && Sum(m, f) == f(m[y]) + Sum(m - {y}, f);
    if y != x {
      SumRemove(m - {y}, f, x);
      SumRemove(m - {x}, f, y);
      assert m - {y} - {x} == m - {x} - {y};
    }
  }

  lemma SumUpdate(m: map<SessionId, Session>, f: Session -> nat, x: SessionId, s: Session)
    requires x in m
    ensures Sum(m[x := s], f) == Sum(m, f) - f(m[x]) + f(s)
  {
    SumRemove(m, f, x);
    SumRemove(m[x := s], f, x);
    assert m[x := s] - {x} == m - {x};
  }

  ghost function HandlersWork(r: Room): nat { Sum(r.sessions, HandlerWork) }
  ghost function WritersWork(r: Room): nat { Sum(r.sessions, WriterWork) }

  /** t is below r in the lexicographic order of handlers' work, |Broadcast|,
      the goroutine's place in its loop, turns left there, writers' work. */
  ghost predicate Below(t: Room, r: Room) {
    || HandlersWork(t) < HandlersWork(r)
    || (HandlersWork(t) == HandlersWork(r) &&
        (|t.broadcast| < |r.broadcast| ||
         (|t.broadcast| == |r.broadcast| &&
          (LoopRank(t.loop) < LoopRank(r.loop) ||
           (LoopRank(t.loop) == LoopRank(r.loop) &&
            (TurnsLeft(t.loop) < TurnsLeft(r.loop) ||
             (TurnsLeft(t.loop) == TurnsLeft(r.loop) && WritersWork(t) < WritersWork(r))))))))
  }

  /** Replacing one session changes the sum by that session's share. */
  lemma SumStep(r: Room, t: Room, f: Session -> nat, x: SessionId)
    requires x in r.sessions && x in t.sessions && t.sessions == r.sessions[x := t.sessions[x]]
    ensures Sum(t.sessions, f) - Sum(r.sessions, f) == f(t.sessions[x]) - f(r.sessions[x])
  {
    SumUpdate(r.sessions, f, x, t.sessions[x]);
  }

  /** Only session x differs, and its handler has less to do. */
  ghost predicate HandlerMoved(r: Room, t: Room, x: SessionId) {
    && x in r.sessions && x in t.sessions && t.sessions == r.sessions[x := t.sessions[x]]
    && HandlerWork(t.sessions[x]) < HandlerWork(r.sessions[x])
  }

  lemma SpeakerMoved(r: Room, x: SessionId, created: string, stamped: string)
    requires At(r, x, Greeting)
    ensures HandlerMoved(r, Say(r, x, r.sessions[x].join, false, created, stamped), x)
  {
    var t := Say(r, x, r.sessions[x].join, false, created, stamped);
    assert t.sessions == r.sessions[x := t.sessions[x]];
  }

  lemma SchedulerMoved(r: Room, x: SessionId)
    requires At(r, x, Scheduling)
    ensures HandlerMoved(r, AfterSchedule(r, x), x)
  {}

  lemma FallbackMoved(r: Room, x: SessionId)
    requires Safe(r) && LockFree(r) && At(r, x, FallingBack)
    ensures HandlerMoved(r, AfterRemoveDirect(r, x), x)
  {
    FallbackFindsItsSession(r, x);
  }

  lemma PhaseMoved(r: Room, a: Action)
    requires Enabled(r, a) && (a.Indexed? || a.Handoff? || a.Unindexed? || a.Depart?)
    ensures HandlerMoved(r, Next(r, a), a.x)
  {}

  lemma MovedBelow(r: Room, t: Room, x: SessionId)
    requires HandlerMoved(r, t, x)
    ensures Below(t, r)
  {
    SumStep(r, t, HandlerWork, x);
  }

  lemma HandlerBelow(r: Room, a: Action)
    requires Safe(r) && Enabled(r, a) && !IsInput(a) && !OfLoop(a) && !OfWriter(a)
    ensures Below(Next(r, a), r)
  {
    if a.Greet? {
      SpeakerMoved(r, a.x, a.created, a.stamped);
    } else if a.Schedule? {
      SchedulerMoved(r, a.x);
    } else if a.RemoveDirect? {
      FallbackMoved(r, a.x);
    } else {
      PhaseMoved(r, a);
    }
    MovedBelow(r, Next(r, a), a.x);
  }

  lemma WriterBelow(r: Room, a: Action)
    requires Enabled(r, a) && OfWriter(a)
    ensures Below(Next(r, a), r)
  {
    SumStep(r, Next(r, a), HandlerWork, a.x);
    SumStep(r, Next(r, a), WriterWork, a.x);
  }

  lemma EvictKeepsHandlers(r: Room, u: UserId)
    requires u in r.users && r.users[u] in r.sessions
    ensures Sum(Evict(r, u).sessions, HandlerWork) == Sum(r.sessions, HandlerWork)
  {
    SumStep(r, Evict(r, u), HandlerWork, r.users[u]);
  }

  lemma FanOneKeepsHandlers(r: Room, u: UserId)
    requires r.loop.Fanning?
    ensures Sum(AfterFanOne(r, u).sessions, HandlerWork) == Sum(r.sessions, HandlerWork)
  {
    if u in r.users && r.users[u] in r.sessions && !r.sessions[r.users[u]].closed {
      SumStep(r, AfterFanOne(r, u), HandlerWork, r.users[u]);
    }
  }

  lemma CloseOneKeepsHandlers(r: Room, u: UserId)
    requires r.loop.Closing?
    ensures Sum(AfterCloseOne(r, u).sessions, HandlerWork) == Sum(r.sessions, HandlerWork)
  {
    if u in r.users && r.users[u] in r.sessions {
      SumStep(r, AfterCloseOne(r, u), HandlerWork, r.users[u]);
    }
  }

  lemma LoopKeepsHandlers(r: Room, a: Action)
    requires Enabled(r, a) && OfLoop(a)
    ensures HandlersWork(Next(r, a)) == HandlersWork(r)
  {
    if a.FanOne? {
      FanOneKeepsHandlers(r, a.u);
    } else if a.CloseOne? {
      CloseOneKeepsHandlers(r, a.u);
    } else if a.Process? {
      var u := r.loop.event.removeUserId;
      if Removal(r.loop.event) && u in r.users && r.users[u] in r.sessions {
        EvictKeepsHandlers(r, u);
      }
    }
  }

  lemma LoopShrinks(r: Room, a: Action)
    requires Enabled(r, a) && OfLoop(a)
    ensures var t := Next(r, a);
      || |t.broadcast| < |r.broadcast|
      || (|t.broadcast| == |r.broadcast| && LoopRank(t.loop) < LoopRank(r.loop))
      || (|t.broadcast| == |r.broadcast| && LoopRank(t.loop) == LoopRank(r.loop)
          && TurnsLeft(t.loop) < TurnsLeft(r.loop))
  {
    if a.FanOne? {
      assert |r.loop.pending - {a.u}| == |r.loop.pending| - 1;
    } else if a.CloseOne? {
      assert |r.loop.leftOpen - {a.u}| == |r.loop.leftOpen| - 1;
    }
  }

  /** Every step that is not an input makes the room smaller: from any
      reachable state, without input, only finitely many steps are possible. */
  lemma NonInputDecreases(r: Room, a: Action)
    requires Safe(r) && Enabled(r, a) && !IsInput(a)
    ensures Below(Next(r, a), r)
  {
    if OfLoop(a) {
      LoopKeepsHandlers(r, a);
      LoopShrinks(r, a);
    } else if OfWriter(a) {
      WriterBelow(r, a);
    } else {
      HandlerBelow(r, a);
    }
  }

  // ----------------------------------------------------------- settled rooms

  ghost predicate Settled(r: Room) {
    forall a :: Enabled(r, a) ==> IsInput(a)
  }

  /** A room left without input can settle, and by NonInputDecreases it does
      however its goroutines are scheduled; no write needs to fail for that. */
  lemma Settles(r: Room) returns (acts: seq<Action>, t: Room)
    requires Safe(r)
    ensures Run(r, acts, t) && Settled(t)
    ensures forall i :: 0 <= i < |acts| ==> !IsInput(acts[i]) && !acts[i].WriterFail?
  {
    var inv, rest := (s: Room) => Safe(s), (s: Room) => Settled(s);
    forall s, a | inv(s) && Enabled(s, a) && !IsInput(a) ensures inv(Next(s, a)) && Below(Next(s, a), s) {
      SafeKept(s, a);
      NonInputDecreases(s, a);
    }
    forall s | inv(s) && !rest(s) ensures CanGoOn(s) {
      var a := SomeStep(s);
    }
    acts, t := ComesToRest(r, inv, rest);
  }

  /** Some step without input or write failure is possible. */
  ghost predicate CanGoOn(r: Room) { exists a :: Enabled(r, a) && !IsInput(a) && !a.WriterFail? }

  /** Steps that lead downward, possible until rest, lead to rest. */
  lemma {:induction false} ComesToRest(r: Room, inv: Room -> bool, rest: Room -> bool)
      returns (acts: seq<Action>, t: Room)
    requires inv(r)
    requires forall s, a :: inv(s) && Enabled(s, a) && !IsInput(a) ==> inv(Next(s, a)) && Below(Next(s, a), s)
    requires forall s :: inv(s) && !rest(s) ==> CanGoOn(s)
    ensures Run(r, acts, t) && rest(t)
    ensures forall i :: 0 <= i < |acts| ==> !IsInput(acts[i]) && !acts[i].WriterFail?
    decreases HandlersWork(r), |r.broadcast|, LoopRank(r.loop), TurnsLeft(r.loop), WritersWork(r)
  {
    if rest(r) {
      acts, t := [], r;
    } else {
      assert CanGoOn(r);
      var a :| Enabled(r, a) && !IsInput(a) && !a.WriterFail?;
      var later;
      later, t := ComesToRest(Next(r, a), inv, rest);
      acts := [a] + later;
      RunCons(r, a, Next(r, a), later, t);
    }
  }

  lemma SomeStep(r: Room) returns (a: Action)
    requires !Settled(r)
    ensures Enabled(r, a) && !IsInput(a) && !a.WriterFail?
  {
    var b :| Enabled(r, b) && !IsInput(b);
    a := if b.WriterFail? then WriterWrote(b.x) else b;
  }

  lemma HolderCanMove(r: Room)
    requires Locks(r) && r.holder.Some?
    ensures !Settled(r)
  {
    var x := r.holder.value;
    assert Enabled(r, Indexed(x)) || Enabled(r, Unindexed(x));
  }

  lemma LoopCanMove(r: Room)
    requires r.holder.None? && !r.loop.Exited? && !(r.loop.Selecting? && r.broadcast == [] && !r.cancelled)
    ensures !Settled(r)
  {
    match r.loop
    case Selecting => assert Enabled(r, Receive) || Enabled(r, SeeCancel);
    case Holding(_) => assert Enabled(r, Process);
    case Fanning(_, pending) =>
      if pending == {} {
        assert Enabled(r, EndFan);
      } else {
        var u :| u in pending;
        assert Enabled(r, FanOne(u));
      }
    case Unlisting(_) => assert Enabled(r, Unlist);
    case Closing(leftOpen) =>
      if leftOpen == {} {
        assert Enabled(r, EndClose);
      } else {
        var u :| u in leftOpen;
        assert Enabled(r, CloseOne(u));
      }
  }

  lemma HandlerCanMove(r: Room, x: SessionId)
    requires LockFree(r) && x in r.sessions
    requires !r.sessions[x].phase.Reading? && !r.sessions[x].phase.Departed?
    requires r.sessions[x].phase.Awaiting? ==> WriterDone(r.sessions[x].writer)
    ensures !Settled(r)
  {
    match r.sessions[x].phase
    case Indexing => assert Enabled(r, Indexed(x));
    case Greeting => assert Enabled(r, Greet(x, "", ""));
    case Publishing(_, _) => assert Enabled(r, Handoff(x));
    case Scheduling => assert Enabled(r, Schedule(x));
    case FallingBack => assert Enabled(r, RemoveDirect(x));
    case Unindexing => assert Enabled(r, Unindexed(x));
    case Awaiting => assert Enabled(r, Depart(x));
  }

  lemma WriterCanMove(r: Room, x: SessionId)
    requires x in r.sessions && !WriterDone(r.sessions[x].writer) && !r.sessions[x].phase.Indexing?
    requires r.sessions[x].closed || r.cancelled
    ensures !Settled(r)
  {
    if r.sessions[x].writer.Writing? {
      assert Enabled(r, WriterWrote(x));
    } else if r.cancelled {
      assert Enabled(r, WriterStop(x));
    } else {
      assert Enabled(r, WriterTake(x)) || Enabled(r, WriterDrained(x));
    }
  }

  lemma SettledShape(r: Room)
    requires Locks(r) && Settled(r)
    ensures r.holder.None?
    ensures r.loop.Exited? || (r.loop.Selecting? && r.broadcast == [] && !r.cancelled)
  {
    if r.holder.Some? { HolderCanMove(r); }
    if !(r.loop.Exited? || (r.loop.Selecting? && r.broadcast == [] && !r.cancelled)) { LoopCanMove(r); }
  }

  lemma SettledHandler(r: Room, x: SessionId)
    requires Locks(r) && Settled(r) && x in r.sessions
    ensures r.sessions[x].phase.Reading? || r.sessions[x].phase.Departed? || r.sessions[x].phase.Awaiting?
    ensures r.sessions[x].phase.Awaiting? ==> !WriterDone(r.sessions[x].writer)
  {
    SettledShape(r);
    if !r.sessions[x].phase.Reading? && !r.sessions[x].phase.Departed?
       && (r.sessions[x].phase.Awaiting? ==> WriterDone(r.sessions[x].writer)) {
      HandlerCanMove(r, x);
    }
  }

  lemma SettledWriter(r: Room, x: SessionId)
    requires Locks(r) && Settled(r) && x in r.sessions && !WriterDone(r.sessions[x].writer)
    ensures !r.sessions[x].closed && !r.cancelled
  {
    SettledHandler(r, x);
    if r.sessions[x].closed || r.cancelled { WriterCanMove(r, x); }
  }

  /** A queued removal of an uncancelled settled room was carried out iff its
      user id is not empty: the goroutine takes the event of an empty id for a
      response and fans out a nil pointer instead. */
  lemma SettledRemoval(r: Room, x: SessionId)
    requires Safe(r) && CancelOk(r) && Settled(r) && x in r.sessions
    requires r.sessions[x].h.queuedAt.Some? && !r.cancelled
    ensures r.sessions[x].h.removed <==> r.sessions[x].user != ""
  {
    SettledShape(r);
    assert |r.h.enqueued[r.h.received..]| == 0;
  }

  // ------------------------------------------------------------- main results

  /** No stranded handler: a handler blocked on writeDone has its removal still
      to be carried out, or its Send closed, or its room cancelled, or its
      writer finished, unless its user id is the empty string. */
  lemma WaitingHandlerIsServed(server: ServerId, id: RoomId, cap: nat, acts: seq<Action>, r: Room, x: SessionId)
    requires Run(NewRoom(server, id, cap), acts, r)
    requires At(r, x, Awaiting) && r.sessions[x].user != ""
    ensures
      || r.sessions[x].closed
      || (r.sessions[x].h.queuedAt.Some? && Done(r) <= r.sessions[x].h.queuedAt.value < |r.h.enqueued|
          && r.h.enqueued[r.sessions[x].h.queuedAt.value] == RemovalEvent(r, x))
  {
    SafeFromStart(server, id, cap, acts, r);
    assert PhaseOk(r.sessions[x]);
  }

  /** A handler that waits for a removal the goroutine did not recognise. */
  predicate Stranded(r: Room, x: SessionId) {
    At(r, x, Awaiting) && r.sessions[x].user == "" && r.sessions[x].h.queuedAt.Some? && !r.cancelled
  }

  /** In a settled room a handler is reading or departed, but for an empty
      user id whose removal was queued in a room not cancelled. */
  lemma NobodyIsStranded(server: ServerId, id: RoomId, cap: nat, acts: seq<Action>, r: Room, x: SessionId)
    requires Run(NewRoom(server, id, cap), acts, r) && Settled(r) && x in r.sessions
    ensures r.sessions[x].phase.Reading? || r.sessions[x].phase.Departed? || Stranded(r, x)
  {
    CancelOkAlways(NewRoom(server, id, cap), acts, r);
    SettledHandler(r, x);
    if r.sessions[x].phase.Awaiting? {
      SettledWriter(r, x);
      assert PhaseOk(r.sessions[x]);
      SettledRemoval(r, x);
    }
  }

  ghost predicate FailedAt(r: Room, x: SessionId) { x in r.sessions && r.sessions[x].writer.Failed? }

  lemma FailedStep(r: Room, a: Action, x: SessionId)
    requires Phases(r) && Enabled(r, a)
    ensures FailedAt(Next(r, a), x) <==> FailedAt(r, x) || a == WriterFail(x)
  {
    if OfWriter(a) {
      WriterShape(r, a);
    } else {
      ScheduledOnce(r, a);
      SessionsEvolve(r, a);
    }
  }

  /** A writer has failed iff one of its writes did. */
  lemma FailedIffWriteFailed(r: Room, acts: seq<Action>, t: Room, x: SessionId)
    requires Safe(r) && Run(r, acts, t)
    ensures FailedAt(t, x) <==> FailedAt(r, x) || WriterFail(x) in acts
  {
    var inv, failed := (s: Room) => Safe(s), (s: Room) => FailedAt(s, x);
    forall s, a | inv(s) && Enabled(s, a)
      ensures inv(Next(s, a)) && (failed(Next(s, a)) <==> failed(s) || a == WriterFail(x))
    {
      SafeKept(s, a);
      FailedStep(s, a, x);
    }
    Happens(r, acts, t, inv, failed, WriterFail(x));
  }

  /** A fact that one action alone makes true, for good. */
  lemma {:induction false} Happens(r: Room, acts: seq<Action>, t: Room, inv: Room -> bool, fact: Room -> bool,
                                   cause: Action)
    requires inv(r) && Run(r, acts, t)
    requires forall s, a :: inv(s) && Enabled(s, a) ==>
      inv(Next(s, a)) && (fact(Next(s, a)) <==> fact(s) || a == cause)
    ensures fact(t) <==> fact(r) || cause in acts
    decreases |acts|
  {
    if acts != [] {
      Happens(Next(r, acts[0]), acts[1..], t, inv, fact, cause);
      assert acts == [acts[0]] + acts[1..];
    }
  }

  /** The exact condition, for every handler that has left its read loop: once
      the room has settled it has departed iff its user id is not empty, or it
      removed itself directly, or the room was cancelled, or some write to its
      connection failed on the way. */
  lemma LeaverDepartsIff(server: ServerId, id: RoomId, cap: nat, acts: seq<Action>, r: Room, x: SessionId)
    requires Run(NewRoom(server, id, cap), acts, r) && Settled(r) && x in r.sessions
    requires !r.sessions[x].phase.Reading?
    ensures r.sessions[x].phase.Departed? <==>
      r.sessions[x].user != "" || r.sessions[x].h.queuedAt.None? || r.cancelled || WriterFail(x) in acts
  {
    NobodyIsStranded(server, id, cap, acts, r, x);
    if r.sessions[x].h.queuedAt.Some? && !r.cancelled { DepartsIffNamed(server, id, cap, acts, r, x); }
  }

  /** The case of a removal that was queued, in a room not cancelled. */
  lemma DepartsIffNamed(server: ServerId, id: RoomId, cap: nat, acts: seq<Action>, r: Room, x: SessionId)
    requires Run(NewRoom(server, id, cap), acts, r) && Settled(r) && x in r.sessions
    requires r.sessions[x].h.queuedAt.Some? && !r.cancelled
    ensures r.sessions[x].phase.Departed? <==> r.sessions[x].user != "" || WriterFail(x) in acts
  {
    DepartsIffFailed(server, id, cap, acts, r, x);
    FailedIffWriteFailed(NewRoom(server, id, cap), acts, r, x);
  }

  lemma DepartsIffFailed(server: ServerId, id: RoomId, cap: nat, acts: seq<Action>, r: Room, x: SessionId)
    requires Run(NewRoom(server, id, cap), acts, r) && Settled(r) && x in r.sessions
    requires r.sessions[x].h.queuedAt.Some? && !r.cancelled
    ensures r.sessions[x].phase.Departed? <==> r.sessions[x].user != "" || r.sessions[x].writer.Failed?
  {
    RecordedFromStart(server, id, cap, acts, r);
    CancelOkAlways(NewRoom(server, id, cap), acts, r);
    SettledShape(r);
    SettledHandler(r, x);
    SettledRemoval(r, x);
    OpenUntilRemoved(r, x);
    if !WriterDone(r.sessions[x].writer) { SettledWriter(r, x); }
    DepartureCases(r.sessions[x]);
  }

  /** What is known of the session, and nothing about the room around it. */
  lemma OpenUntilRemoved(r: Room, x: SessionId)
    requires Sends(r) && Phases(r) && Outboxes(r) && CancelOk(r) && !r.cancelled && Alive(r) && x in r.sessions
    ensures var s := r.sessions[x];
      PhaseOk(s) && Outbox(s) && !s.writer.Stopped? && (s.closed <==> s.h.removed)
  {}

  lemma DepartureCases(s: Session)
    requires PhaseOk(s) && Outbox(s) && s.h.queuedAt.Some? && !s.writer.Stopped?
    requires (s.closed <==> s.h.removed) && (s.h.removed <==> s.user != "")
    requires s.phase.Reading? || s.phase.Departed? || s.phase.Awaiting?
    requires s.phase.Awaiting? ==> !WriterDone(s.writer)
    requires !WriterDone(s.writer) ==> !s.closed
    ensures s.phase.Departed? <==> s.user != "" || s.writer.Failed?
  {}

  /** The last clause of the session window, from what happened in the run: in
      a settled room not cancelled, a session none of whose writes failed has
      had everything its Send accepted written to its connection. */
  lemma EverythingIsWritten(server: ServerId, id: RoomId, cap: nat, acts: seq<Action>, r: Room, x: SessionId)
    requires Run(NewRoom(server, id, cap), acts, r) && Settled(r) && x in r.sessions
    requires !r.cancelled && WriterFail(x) !in acts
    ensures r.sessions[x].h.written == Accepted(r.sessions[x].h.offered)
  {
    RecordedFromStart(server, id, cap, acts, r);
    CancelOkAlways(NewRoom(server, id, cap), acts, r);
    FailedIffWriteFailed(NewRoom(server, id, cap), acts, r, x);
    SettledWrites(r, x);
  }

  lemma WriterHasWork(r: Room, x: SessionId)
    requires x in r.sessions && !r.sessions[x].phase.Indexing?
    requires r.sessions[x].writer.Writing? || (r.sessions[x].writer.Waiting? && r.sessions[x].send != [])
    ensures !Settled(r)
  {
    assert Enabled(r, WriterWrote(x)) || Enabled(r, WriterTake(x));
  }

  lemma SettledWrites(r: Room, x: SessionId)
    requires Locks(r) && Outboxes(r) && CancelOk(r) && Settled(r) && x in r.sessions
    requires !r.cancelled && !r.sessions[x].writer.Failed?
    ensures r.sessions[x].h.written == Accepted(r.sessions[x].h.offered)
  {
    SettledHandler(r, x);
    var s := r.sessions[x];
    assert Outbox(s);
    if s.writer.Writing? || (s.writer.Waiting? && s.send != []) {
      WriterHasWork(r, x);
    } else {
      assert s.h.taken + [] == s.h.taken;
    }
  }

  ghost predicate NoWriteFailed(r: Room) {
    forall x :: x in r.sessions ==> !r.sessions[x].writer.Failed?
  }

  lemma NoWriteFailedStep(r: Room, t: Room)
    requires NoWriteFailed(r) && WritersUntouched(r, t)
    ensures NoWriteFailed(t)
  {}

  lemma NoWriteFailedWriter(r: Room, a: Action)
    requires NoWriteFailed(r) && Enabled(r, a) && OfWriter(a) && !a.WriterFail?
    ensures NoWriteFailed(Next(r, a))
  {}

  lemma NoWriteFailedKept(r: Room, a: Action)
    requires Phases(r) && NoWriteFailed(r) && Enabled(r, a) && !a.WriterFail?
    ensures NoWriteFailed(Next(r, a))
  {
    if OfWriter(a) {
      NoWriteFailedWriter(r, a);
    } else {
      ScheduledOnce(r, a);
      SessionsEvolve(r, a);
      NoWriteFailedStep(r, Next(r, a));
    }
  }

  lemma {:induction false} NoWriteFailedAlways(r: Room, acts: seq<Action>, t: Room)
    requires Safe(r) && NoWriteFailed(r) && Run(r, acts, t) && forall i :: 0 <= i < |acts| ==> !acts[i].WriterFail?
    ensures NoWriteFailed(t)
    decreases |acts|
  {
    if acts != [] {
      SafeKept(r, acts[0]);
      NoWriteFailedKept(r, acts[0]);
      NoWriteFailedAlways(Next(r, acts[0]), acts[1..], t);
    }
  }

  /** Joining and leaving under any user id. */
  function JoinAndLeave(join: Message, leave: Message): seq<Action> {
    [Enter(0, join)] + (Joining() + Leaving(leave))
  }

  function Joining(): seq<Action> { [Indexed(0), Greet(0, "", ""), Handoff(0)] }

  function Leaving(leave: Message): seq<Action> { [Hear(0, Read(leave), "", ""), Handoff(0), Schedule(0)] }

  /** A room with one session, of this JOIN, at this place. */
  ghost predicate Solo(r: Room, join: Message, n: nat) {
    && r.sessions.Keys == {0} && r.sessions[0].user == join.userId && r.sessions[0].join == join
    && r.cap == 10 && |r.broadcast| == n && !r.cancelled && r.loop.Selecting?
    && r.sessions[0].writer.Waiting?
  }

  lemma SoloEnters(join: Message)
    ensures var r := Next(NewRoom("s", "1", 10), Enter(0, join)); Solo(r, join, 0) && At(r, 0, Indexing)
  {}

  lemma SoloSpeaks(r: Room, join: Message, n: nat, m: Message, leaving: bool)
    requires Solo(r, join, n) && n < 10
    ensures var t := Say(r, 0, m, leaving, "", "");
            Solo(t, join, n + 1) && t.sessions[0].phase.Publishing? && t.sessions[0].phase.leaving == leaving
  {}

  lemma SoloMoves(r: Room, join: Message, n: nat, a: Action)
    requires Solo(r, join, n) && Enabled(r, a) && (a == Indexed(0) || a == Handoff(0))
    ensures Solo(Next(r, a), join, n)
    ensures a.Indexed? ==> At(Next(r, a), 0, Greeting)
    ensures a.Handoff? ==> At(Next(r, a), 0, if r.sessions[0].phase.leaving then Scheduling else Reading)
  {}

  lemma SoloSchedules(r: Room, join: Message, n: nat)
    requires Solo(r, join, n) && At(r, 0, Scheduling) && n < 10
    ensures Solo(AfterSchedule(r, 0), join, n + 1) && AfterSchedule(r, 0).sessions[0].h.queuedAt.Some?
  {}

  lemma SoloJoins(r1: Room, join: Message) returns (r4: Room)
    requires Solo(r1, join, 0) && At(r1, 0, Indexing)
    ensures Run(r1, Joining(), r4)
    ensures Solo(r4, join, 1) && At(r4, 0, Reading)
  {
    SoloMoves(r1, join, 0, Indexed(0));
    var r2 := Next(r1, Indexed(0));
    SoloSpeaks(r2, join, 0, join, false);
    var r3 := Next(r2, Greet(0, "", ""));
    SoloMoves(r3, join, 1, Handoff(0));
    r4 := Next(r3, Handoff(0));
    ThreeSteps(r1, Indexed(0), r2, Greet(0, "", ""), r3, Handoff(0), r4);
  }

  lemma SoloLeaves(r4: Room, join: Message, leave: Message) returns (r7: Room)
    requires Solo(r4, join, 1) && At(r4, 0, Reading) && leave.messageType == LEAVE
    ensures Run(r4, Leaving(leave), r7)
    ensures Solo(r7, join, 3) && r7.sessions[0].h.queuedAt.Some?
  {
    SoloSpeaks(r4, join, 1, leave, true);
    var r5 := Next(r4, Hear(0, Read(leave), "", ""));
    SoloMoves(r5, join, 2, Handoff(0));
    var r6 := Next(r5, Handoff(0));
    SoloSchedules(r6, join, 2);
    r7 := Next(r6, Schedule(0));
    ThreeSteps(r4, Hear(0, Read(leave), "", ""), r5, Handoff(0), r6, Schedule(0), r7);
  }

  lemma ThreeSteps(r: Room, a: Action, s: Room, b: Action, t: Room, c: Action, u: Room)
    requires Enabled(r, a) && s == Next(r, a)
    requires Enabled(s, b) && t == Next(s, b)
    requires Enabled(t, c) && u == Next(t, c)
    ensures Run(r, [a, b, c], u)
  {
    assert Run(u, [], u);
    assert [c][1..] == [] && Run(t, [c], u);
    assert [b, c][1..] == [c] && Run(s, [b, c], u);
    assert [a, b, c][1..] == [b, c];
  }

  lemma JoinAndLeaveRuns(join: Message, leave: Message) returns (r: Room)
    requires leave.messageType == LEAVE
    ensures Run(NewRoom("s", "1", 10), JoinAndLeave(join, leave), r)
    ensures Solo(r, join, 3) && r.sessions[0].h.queuedAt.Some?
  {
    var r0 := NewRoom("s", "1", 10);
    SoloEnters(join);
    var r1 := Next(r0, Enter(0, join));
    var r4 := SoloJoins(r1, join);
    r := SoloLeaves(r4, join, leave);
    RunConcat(r1, Joining(), r4, Leaving(leave), r);
    RunCons(r0, Enter(0, join), r1, Joining() + Leaving(leave), r);
  }

  lemma RunCons(r: Room, a: Action, s: Room, rest: seq<Action>, t: Room)
    requires Enabled(r, a) && s == Next(r, a) && Run(s, rest, t)
    ensures Run(r, [a] + rest, t)
  {
    assert ([a] + rest)[1..] == rest;
  }

  lemma {:induction false} SessionStays(r: Room, acts: seq<Action>, t: Room, x: SessionId)
    requires Safe(r) && Run(r, acts, t) && x in r.sessions && r.sessions[x].h.queuedAt.Some? && !r.cancelled
    requires forall i :: 0 <= i < |acts| ==> !IsInput(acts[i])
    ensures x in t.sessions && t.sessions[x].h.queuedAt.Some? && t.sessions[x].user == r.sessions[x].user
    ensures !t.cancelled
    decreases |acts|
  {
    if acts != [] {
      SafeKept(r, acts[0]);
      SessionStaysStep(r, acts[0], x);
      SessionStays(Next(r, acts[0]), acts[1..], t, x);
    }
  }

  lemma SessionStaysStep(r: Room, a: Action, x: SessionId)
    requires Phases(r) && Enabled(r, a) && !IsInput(a)
    requires x in r.sessions && r.sessions[x].h.queuedAt.Some? && !r.cancelled
    ensures var t := Next(r, a);
      x in t.sessions && t.sessions[x].h.queuedAt.Some? && t.sessions[x].user == r.sessions[x].user && !t.cancelled
  {
    ScheduledOnce(r, a);
    SessionsEvolve(r, a);
  }

  /** Any settled, uncancelled room in which an empty id has queued its removal
      and no write failed has a stranded handler. */
  lemma EmptyIdWaitsForever(server: ServerId, id: RoomId, cap: nat, acts: seq<Action>, r: Room, x: SessionId)
    requires Run(NewRoom(server, id, cap), acts, r) && Settled(r) && !r.cancelled && NoWriteFailed(r)
    requires x in r.sessions && r.sessions[x].user == "" && r.sessions[x].h.queuedAt.Some?
    ensures At(r, x, Awaiting) && !r.sessions[x].h.removed && !r.sessions[x].closed && "" in r.users
  {
    CancelOkAlways(NewRoom(server, id, cap), acts, r);
    DepartsIffFailed(server, id, cap, acts, r, x);
    NobodyIsStranded(server, id, cap, acts, r, x);
    SettledRemoval(r, x);
    assert PhaseOk(r.sessions[x]);
    SettledShape(r);
  }

  /** The stranded handler, exhibited: a JOIN with an empty user id, then a
      LEAVE. Everything settles, nothing failed, and the handler still waits,
      a member of the room with an open Send. */
  lemma EmptyIdIsStranded(join: Message, leave: Message) returns (acts: seq<Action>, r: Room)
    requires join.userId == "" && leave.messageType == LEAVE
    ensures Run(NewRoom("s", "1", 10), acts, r) && Settled(r) && !r.cancelled
    ensures At(r, 0, Awaiting) && !r.sessions[0].h.removed && !r.sessions[0].closed && "" in r.users
  {
    var start := NewRoom("s", "1", 10);
    var first := JoinAndLeave(join, leave);
    var r0 := JoinAndLeaveRuns(join, leave);
    SafeAlways(start, first, r0);
    var more;
    more, r := SoloSettles(r0, join);
    acts := first + more;
    RunConcat(start, first, r0, more, r);
    EmptyIdWaitsForever("s", "1", 10, acts, r, 0);
  }

  lemma SoloSettles(r: Room, join: Message) returns (acts: seq<Action>, t: Room)
    requires Safe(r) && Solo(r, join, 3) && r.sessions[0].h.queuedAt.Some?
    ensures Run(r, acts, t) && Settled(t) && NoWriteFailed(t) && !t.cancelled
    ensures 0 in t.sessions && t.sessions[0].user == join.userId && t.sessions[0].h.queuedAt.Some?
  {
    acts, t := Settles(r);
    SessionStays(r, acts, t, 0);
    NoWriteFailedAlways(r, acts, t);
  }
}
