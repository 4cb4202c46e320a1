/** A room as the server holds it, updated in place. Each method is one
    goroutine's code run without interruption, and refines the room protocol:
    what it does is a step, or a run, of the protocol's actions. */
module RoomLoops {
  import opened Basics
  import opened Models
  import opened RoomProtocol
  import opened RoomSafety

  /** All sessions after one whole fan-out of item to those in reached. */
  function FannedOut(sessions: map<SessionId, Session>, reached: set<SessionId>, item: Item, cap: nat)
    : map<SessionId, Session>
  {
    map x | x in sessions :: if x in reached then Offered(sessions[x], item, cap) else sessions[x]
  }

  /** Of the sessions reached, those whose Send had no room. */
  function FullOnes(sessions: map<SessionId, Session>, reached: set<SessionId>, cap: nat): set<SessionId> {
    set x | x in reached && x in sessions && |sessions[x].send| >= cap
  }

  lemma FanStep(sessions: map<SessionId, Session>, reached: set<SessionId>, x: SessionId, item: Item, cap: nat)
    requires x in sessions && x !in reached
    ensures var before := FannedOut(sessions, reached, item, cap);
            && before[x] == sessions[x]
            && FannedOut(sessions, reached + {x}, item, cap) == before[x := Offered(sessions[x], item, cap)]
    ensures |FullOnes(sessions, reached + {x}, cap)|
         == |FullOnes(sessions, reached, cap)| + if |sessions[x].send| >= cap then 1 else 0
  {
    if |sessions[x].send| >= cap {
      assert FullOnes(sessions, reached + {x}, cap) == FullOnes(sessions, reached, cap) + {x};
    } else {
      assert FullOnes(sessions, reached + {x}, cap) == FullOnes(sessions, reached, cap);
    }
  }

  /** Every member has a session of its own, with an open Send. */
  ghost predicate AllOpen(users: map<UserId, SessionId>, sessions: map<SessionId, Session>) {
    && (forall u :: u in users ==> users[u] in sessions && !sessions[users[u]].closed)
    && (forall u, v :: u in users && v in users && users[u] == users[v] ==> u == v)
  }

  lemma MembersAreOpen(r: Room)
    requires Members(r) && Sends(r) && Alive(r)
    ensures AllOpen(r.users, r.sessions)
  {}

  class LiveRoom {
    const server: ServerId
    const id: RoomId
    const cap: nat
    var users: map<UserId, SessionId>
    var sessions: map<SessionId, Session>
    var holder: Option<SessionId>
    var broadcast: seq<RoomEvent>
    var loop: Loop
    var cancelled: bool
    var droppedBroadcast: nat
    var droppedSend: nat
    var h: RoomHistory

    ghost function View(): Room
      reads this
    {
      Room(server, id, cap, users, sessions, holder, broadcast, loop, cancelled, droppedBroadcast, droppedSend, h)
    }

    constructor (server: ServerId, id: RoomId, cap: nat)
      ensures View() == NewRoom(server, id, cap)
    {
      this.server, this.id, this.cap := server, id, cap;
      users, sessions, holder, broadcast := map[], map[], None, [];
      loop, cancelled, droppedBroadcast, droppedSend := Selecting, false, 0, 0;
      h := RoomHistory([], 0, [], 0, 0, 0, 0, 0, 0, false);
    }

    /** The part of AddUserToRoom up to the insertion into Users. */
    method AddUser(x: SessionId, join: Message) returns (added: bool)
      requires Enabled(View(), Enter(x, join))
      modifies this
      ensures View() == Next(old(View()), Enter(x, join))
      ensures added <==> join.userId !in old(users)
      ensures added ==> users == old(users)[join.userId := x] && sessions[x].send == [] && !sessions[x].closed
    {
      added := join.userId !in users;
      if added {
        var past := SessionHistory(|h.fanned|, |h.enqueued|, None, false, [], [], [], [], 0, None);
        sessions := sessions[x := Session(join.userId, join, Indexing, [], false, Waiting, past)];
        users := users[join.userId := x];
        holder := Some(x);
      }
    }

    /** A non-blocking send on Broadcast. */
    method TrySend(e: RoomEvent) returns (sent: bool)
      modifies this`broadcast, this`h
      ensures sent <==> |old(broadcast)| < cap
      ensures View() == if sent then Enqueue(old(View()), e) else old(View())
    {
      sent := |broadcast| < cap;
      if sent {
        broadcast := broadcast + [e];
        h := h.(enqueued := h.enqueued + [e]);
      }
    }

    /** broadcastAndPublish, up to the call of Rabbit.Publish. */
    method BroadcastAndPublish(x: SessionId, m: Message, leaving: bool, created: string, stamped: string)
      requires x in sessions
      modifies this
      ensures View() == Say(old(View()), x, m, leaving, created, stamped)
    {
      var s := sessions[x];
      var resp := NewResponse(m, created);
      var tag := Tag(server, id, x, |s.h.said|);
      var tries, pushes := h.localTries + 1, h.localPushes;
      sessions := sessions[x := s.(phase := Publishing(ToQueue(tag, resp, stamped), leaving),
                                   h := s.h.(said := s.h.said + [resp]))];
      var sent := TrySend(RoomEvent(Item(tag, Some(resp)), ""));
      if sent {
        pushes := pushes + 1;
      } else {
        droppedBroadcast := droppedBroadcast + 1;
      }
      h := h.(localTries := tries, localPushes := pushes);
    }

    /** scheduleRemoveUser: queue the removal, or choose the fallback. */
    method ScheduleRemoveUser(x: SessionId)
      requires At(View(), x, Scheduling)
      modifies this
      ensures View() == AfterSchedule(old(View()), x)
    {
      var s := sessions[x];
      var position := |h.enqueued|;
      var sent := TrySend(RoomEvent(Item(Tag(server, id, x, |s.h.said|), None), s.user));
      if sent {
        sessions := sessions[x := s.(phase := Awaiting, h := s.h.(queuedAt := Some(position)))];
      } else {
        sessions := sessions[x := s.(phase := FallingBack)];
        h := h.(fallbacks := h.fallbacks + 1);
      }
    }

    /** closeOnce.Do(close(Send)), then delete from Users. */
    method RemoveMember(u: UserId)
      requires u in users && users[u] in sessions
      modifies this`users, this`sessions
      ensures View() == Evict(old(View()), u)
    {
      var x := users[u];
      var s := sessions[x];
      if !s.closed {
        s := s.(closed := true, h := s.h.(gone := Some(|h.fanned|)));
      }
      sessions := sessions[x := s.(h := s.h.(removed := true))];
      users := users - {u};
    }

    /** RemoveUserFromRoom as the fallback calls it, up to the index update. */
    method RemoveUserFromRoom(x: SessionId) returns (found: bool)
      requires Safe(View()) && Enabled(View(), RemoveDirect(x))
      modifies this
      ensures found && View() == AfterRemoveDirect(old(View()), x)
      ensures Safe(View())
    {
      ghost var r := View();
      var u := sessions[x].user;
      found := u in users;
      if found {
        RemoveMember(u);
        sessions := sessions[x := sessions[x].(phase := Unindexing)];
        holder := Some(x);
      } else {
        sessions := sessions[x := sessions[x].(phase := Awaiting)];
      }
      RemoveDirectSafe(r, x);
      FallbackFindsItsSession(r, x);
    }

    /** The consumer closure: None when the body does not decode; a message of
        this very server is skipped; any other is answered afresh and enqueued
        if there is room. */
    method ConsumeMessages(qm: Option<QueueMessage>, now: string)
      modifies this`broadcast, this`h
      ensures qm.None? || qm.value.serverId == server ==> View() == old(View())
      ensures qm.Some? && qm.value.serverId != server ==>
        View() == AfterRemote(old(View()), Item(qm.value.id, Some(NewResponse(qm.value.message, qm.value.timestamp))))
    {
      if qm.None? || qm.value.serverId == server {
        return;
      }
      var message := NewResponse(qm.value.message, now);
      message := message.(serverTimestamp := qm.value.timestamp);
      var sent := TrySend(RoomEvent(Item(qm.value.id, Some(message)), ""));
      if !sent {
        h := h.(lostRemote := h.lostRemote + 1);
      }
    }

    /** One turn of the fan-out loop. */
    method OfferTo(u: UserId)
      requires loop.Fanning? && u in users && users[u] in sessions && !sessions[users[u]].closed
      modifies this`sessions, this`loop, this`h, this`droppedSend
      ensures View() == AfterFanOne(old(View()), u)
    {
      var x := users[u];
      var s := sessions[x];
      var item := loop.item;
      if |s.send| < cap {
        sessions := sessions[x := s.(send := s.send + [item], h := s.h.(offered := s.h.offered + [Offer(item, true)]))];
        h := h.(puts := h.puts + 1);
      } else {
        sessions := sessions[x := s.(h := s.h.(offered := s.h.offered + [Offer(item, false)]))];
        droppedSend := droppedSend + 1;
      }
      loop := Fanning(item, loop.pending - {u});
    }

    /** Where the fan-out loop stands: everyone but those pending reached. */
    ghost predicate FanProgress(item: Item, s0: map<SessionId, Session>, d0: nat)
      reads this
    {
      && loop.Fanning? && loop.item == item && loop.pending <= users.Keys
      && (forall u :: u in users ==> users[u] in s0 && !s0[users[u]].closed)
      && (forall u, v :: u in users && v in users && users[u] == users[v] ==> u == v)
      && sessions == FannedOut(s0, Reached(), item, cap)
      && droppedSend == d0 + |FullOnes(s0, Reached(), cap)|
    }

    ghost function Reached(): set<SessionId>
      requires loop.Fanning?
      reads this
    {
      set u | u in users && u !in loop.pending :: users[u]
    }

    method FanTurn(u: UserId, item: Item, ghost s0: map<SessionId, Session>, ghost d0: nat)
      requires FanProgress(item, s0, d0) && u in loop.pending
      modifies this`sessions, this`loop, this`h, this`droppedSend
      ensures FanProgress(item, s0, d0) && loop.pending == old(loop.pending) - {u}
      ensures View() == AfterFanOne(old(View()), u)
    {
      ghost var x := users[u];
      ghost var reached := Reached();
      FanStep(s0, reached, x, item, cap);
      OfferTo(u);
      assert Reached() == reached + {x};
    }

    /** A turn as the next step of a run. */
    method FanTurnOn(u: UserId, item: Item, ghost s0: map<SessionId, Session>, ghost d0: nat,
                     ghost start: Room, ghost before: seq<Action>) returns (ghost trace: seq<Action>)
      requires Run(start, before, View()) && FanProgress(item, s0, d0) && u in loop.pending
      modifies this`sessions, this`loop, this`h, this`droppedSend
      ensures Run(start, trace, View())
      ensures FanProgress(item, s0, d0) && loop.pending == old(loop.pending) - {u}
    {
      FanOneRuns(start, before, View(), u);
      trace := before + [FanOne(u)];
      FanTurn(u, item, s0, d0);
    }

    method BeginFan() returns (item: Item)
      requires loop.Holding? && !Removal(loop.event)
      modifies this`loop, this`h
      ensures View() == AfterProcess(old(View()))
      ensures item == old(loop).event.item && loop == Fanning(item, users.Keys)
    {
      item := loop.event.item;
      h := h.(fanned := h.fanned + [item], audience := h.audience + |users|);
      loop := Fanning(item, users.Keys);
    }

    lemma NobodyReached()
      requires AllOpen(users, sessions) && loop.Fanning? && loop.pending == users.Keys
      ensures FanProgress(loop.item, sessions, droppedSend)
    {
      assert Reached() == {};
      assert FannedOut(sessions, {}, loop.item, cap) == sessions;
      assert FullOnes(sessions, {}, cap) == {};
    }

    lemma EverybodyReached(item: Item, s0: map<SessionId, Session>, d0: nat)
      requires FanProgress(item, s0, d0) && loop.pending == {}
      ensures sessions == FannedOut(s0, users.Values, item, cap)
      ensures droppedSend == d0 + |FullOnes(s0, users.Values, cap)|
    {
      assert Reached() == users.Values;
    }

    /** The goroutine's fan-out of the item in its hand: over Users in any
        order, a non-blocking send to each. */
    method FanOut(ghost start: Room, ghost before: seq<Action>) returns (ghost trace: seq<Action>)
      requires Run(start, before, View()) && AllOpen(users, sessions)
      requires loop.Holding? && !Removal(loop.event) && ReadLockFree(View())
      modifies this`sessions, this`loop, this`h, this`droppedSend
      ensures Run(start, trace, View())
      ensures loop == Selecting
      ensures sessions == FannedOut(old(sessions), users.Values, old(loop).event.item, cap)
      ensures droppedSend == old(droppedSend) + |FullOnes(old(sessions), users.Values, cap)|
    {
      ghost var s0, d0 := sessions, droppedSend;
      ProcessFanRuns(start, before, View());
      trace := before + [Process];
      var item := BeginFan();
      NobodyReached();
      while loop.pending != {}
        invariant FanProgress(item, s0, d0)
        invariant Run(start, trace, View())
        decreases if loop.Fanning? then loop.pending else {}
      {
        var u :| u in loop.pending;
        trace := FanTurnOn(u, item, s0, d0, start, trace);
      }
      EverybodyReached(item, s0, d0);
      EndFanRuns(start, trace, View());
      trace := trace + [EndFan];
      loop := Selecting;
    }

    method TakeEvent() returns (event: RoomEvent)
      requires loop == Selecting && broadcast != []
      modifies this`broadcast, this`loop, this`h
      ensures View() == AfterReceive(old(View())) && event == old(broadcast)[0]
    {
      event := broadcast[0];
      broadcast := broadcast[1..];
      loop := Holding(event);
      h := h.(received := h.received + 1);
    }

    method CarryOutRemoval()
      requires Safe(View()) && loop.Holding? && Removal(loop.event) && LockFree(View())
      modifies this`users, this`sessions, this`loop
      ensures View() == AfterProcess(old(View()))
      ensures var u := old(loop).event.removeUserId;
        && u in old(users) && old(users)[u] == old(loop).event.item.tag.session
        && users == old(users) - {u} && loop == Unlisting(u)
        && old(users)[u] in sessions && sessions[old(users)[u]].closed
    {
      ghost var r := View();
      var u := loop.event.removeUserId;
      if u in users {
        RemoveMember(u);
        loop := Unlisting(u);
      } else {
        loop := Selecting;
      }
      HeldRemovalFindsItsSession(r);
    }

    /** One turn of the broadcast goroutine when an event is waiting, up to the
        update of UserRooms. */
    method HandleEvent() returns (ghost trace: seq<Action>)
      requires Safe(View()) && loop == Selecting && broadcast != [] && holder.None?
      modifies this
      ensures Run(old(View()), trace, View()) && Safe(View())
      ensures broadcast == old(broadcast)[1..]
      ensures var e := old(broadcast)[0];
        if e.removeUserId != "" then
          && e.removeUserId in old(users) && old(users)[e.removeUserId] == e.item.tag.session
          && users == old(users) - {e.removeUserId} && loop == Unlisting(e.removeUserId)
          && e.item.tag.session in sessions && sessions[e.item.tag.session].closed
        else
          && users == old(users) && loop == Selecting
          && sessions == FannedOut(old(sessions), users.Values, e.item, cap)
          && droppedSend == old(droppedSend) + |FullOnes(old(sessions), users.Values, cap)|
    {
      ghost var start := View();
      ReceiveRuns(start);
      var event := TakeEvent();
      if event.removeUserId != "" {
        ProcessRemovalRuns(start, [Receive], View());
        trace := [Receive] + [Process];
        CarryOutRemoval();
      } else {
        MembersAreOpen(View());
        trace := FanOut(start, [Receive]);
        SafeAlways(start, trace, View());
      }
    }

    /** The goroutine when it sees the room cancelled: close every member's
        Send, delete nobody, exit. */
    method ShutDown() returns (ghost trace: seq<Action>)
      requires Safe(View()) && Enabled(View(), SeeCancel)
      modifies this`sessions, this`loop
      ensures Run(old(View()), trace, View()) && Safe(View())
      ensures loop == Exited
      ensures forall u :: u in users ==> users[u] in sessions && sessions[users[u]].closed
    {
      ghost var start := View();
      SeeCancelRuns(start);
      trace := [SeeCancel];
      loop := Closing(users.Keys);
      while loop.leftOpen != {}
        invariant loop.Closing? && Safe(View()) && Run(start, trace, View())
        decreases if loop.Closing? then loop.leftOpen else {}
      {
        var u :| u in loop.leftOpen;
        CloseOneRuns(start, trace, View(), u);
        trace := trace + [CloseOne(u)];
        CloseMember(u);
      }
      AllClosed(View());
      EndCloseRuns(start, trace, View());
      trace := trace + [EndClose];
      loop := Exited;
    }

    method CloseMember(u: UserId)
      requires Members(View()) && Sends(View()) && loop.Closing? && u in loop.leftOpen
      modifies this`sessions, this`loop
      ensures View() == AfterCloseOne(old(View()), u)
      ensures loop == Closing(old(loop).leftOpen - {u})
    {
      var x := users[u];
      if !sessions[x].closed {
        sessions := sessions[x := sessions[x].(closed := true, h := sessions[x].h.(gone := Some(|h.fanned|)))];
      }
      loop := Closing(loop.leftOpen - {u});
    }

    /** handleClientWrites on what is in Send: the write after failAt good ones
        fails, the cancellation is picked up after stopAt of them; without
        either it finishes if Send is closed and blocks if not. */
    method HandleClientWrites(x: SessionId, failAt: Option<nat>, stopAt: Option<nat>)
      returns (k: nat, exit: Exit, ghost trace: seq<Action>)
      requires MayWrite(View(), x) && (stopAt.Some? ==> cancelled)
      modifies this`sessions
      ensures Run(old(View()), trace, View())
      ensures x in sessions && sessions == old(sessions)[x := sessions[x]]
      ensures k <= |old(sessions[x].send)| && sessions[x] == Ended(old(sessions[x]), k, exit)
      ensures exit == Stopping <==> stopAt == Some(k)
      ensures exit == Failing <==> stopAt != Some(k) && k < |old(sessions[x].send)|
      ensures exit == Failing ==> failAt == Some(k)
      ensures exit == Draining ==> old(sessions[x].closed)
      ensures exit == Blocking ==> !old(sessions[x].closed)
      ensures forall j: nat :: j < k ==> failAt != Some(j) && stopAt != Some(j)
    {
      ghost var r, s0 := View(), sessions[x];
      k := WriteItems(x, failAt, stopAt);
      exit := LastTurn(x, stopAt == Some(k));
      EndedOn(s0, k, exit);
      WritesRun(r, x, k, exit);
      trace := WriteActions(x, k) + LastActions(x, exit);
      assert sessions == r.sessions[x := Ended(s0, k, exit)];
    }

    /** The turn that ends the loop, or leaves it blocked. */
    method LastTurn(x: SessionId, stops: bool) returns (exit: Exit)
      requires x in sessions && sessions[x].writer.Waiting?
      modifies this`sessions
      ensures sessions == old(sessions)[x := Ended(old(sessions[x]), 0, exit)]
      ensures exit == if stops then Stopping else if old(sessions[x].send) != [] then Failing
                      else if old(sessions[x].closed) then Draining else Blocking
    {
      WroteNone(sessions[x]);
      if stops {
        exit := Stopping;
        sessions := sessions[x := sessions[x].(writer := Stopped)];
      } else if sessions[x].send != [] {
        exit := Failing;
        var item := TakeFromSend(x);
        sessions := sessions[x := sessions[x].(writer := Failed)];
      } else if sessions[x].closed {
        exit := Draining;
        sessions := sessions[x := sessions[x].(writer := Drained)];
      } else {
        exit := Blocking;
      }
    }

    /** The loop's turns up to the one that ends it. */
    method WriteItems(x: SessionId, failAt: Option<nat>, stopAt: Option<nat>) returns (k: nat)
      requires MayWrite(View(), x)
      modifies this`sessions
      ensures k <= |old(sessions[x].send)| && sessions == old(sessions)[x := Wrote(old(sessions[x]), k)]
      ensures stopAt == Some(k) || failAt == Some(k) || k == |old(sessions[x].send)|
      ensures forall j: nat :: j < k ==> failAt != Some(j) && stopAt != Some(j)
    {
      ghost var r, s0 := View(), sessions[x];
      WroteNone(s0);
      k := 0;
      while stopAt != Some(k) && failAt != Some(k) && sessions[x].send != []
        invariant k <= |s0.send| && x in sessions && sessions == r.sessions[x := Wrote(s0, k)]
        invariant forall j: nat :: j < k ==> failAt != Some(j) && stopAt != Some(j)
        decreases |s0.send| - k
      {
        var item := TakeFromSend(x);
        WriteResponse(x, item);
        WroteOneMore(s0, k);
        k := k + 1;
      }
    }

    method TakeFromSend(x: SessionId) returns (item: Item)
      requires x in sessions && sessions[x].writer.Waiting? && sessions[x].send != []
      modifies this`sessions
      ensures var s := old(sessions[x]);
        && item == s.send[0]
        && sessions == old(sessions)[x := s.(send := s.send[1..], writer := Writing(item),
                                             h := s.h.(taken := s.h.taken + [item]))]
    {
      var s := sessions[x];
      item := s.send[0];
      sessions := sessions[x := s.(send := s.send[1..], writer := Writing(item),
                                   h := s.h.(taken := s.h.taken + [item]))];
    }

    /** WriteJSON, when it succeeds. */
    method WriteResponse(x: SessionId, item: Item)
      requires x in sessions && sessions[x].writer == Writing(item)
      modifies this`sessions
      ensures var s := old(sessions[x]);
        sessions == old(sessions)[x := s.(writer := Waiting, h := s.h.(written := s.h.written + [item]))]
    {
      var s := sessions[x];
      sessions := sessions[x := s.(writer := Waiting, h := s.h.(written := s.h.written + [item]))];
    }
  }

  /** How the writer's loop comes to rest. */
  datatype Exit = Blocking | Draining | Failing | Stopping

  predicate MayWrite(r: Room, x: SessionId) {
    x in r.sessions && r.sessions[x].writer.Waiting? && !r.sessions[x].phase.Indexing?
  }

  /** A session whose writer has received and written the first k items. */
  function Wrote(s: Session, k: nat): Session
    requires k <= |s.send|
  {
    s.(send := s.send[k..], h := s.h.(taken := s.h.taken + s.send[..k], written := s.h.written + s.send[..k]))
  }

  /** And then stopped in this way. */
  function Ended(s: Session, k: nat, exit: Exit): Session
    requires k <= |s.send|
  {
    var t := Wrote(s, k);
    match exit
    case Blocking => t
    case Draining => t.(writer := Drained)
    case Stopping => t.(writer := Stopped)
    case Failing =>
      if t.send == [] then t
      else t.(send := t.send[1..], writer := Failed, h := t.h.(taken := t.h.taken + [t.send[0]]))
  }

  function WriteActions(x: SessionId, k: nat): seq<Action> {
    if k == 0 then [] else WriteActions(x, k - 1) + [WriterTake(x)] + [WriterWrote(x)]
  }

  function LastActions(x: SessionId, exit: Exit): seq<Action> {
    match exit
    case Blocking => []
    case Draining => [WriterDrained(x)]
    case Stopping => [WriterStop(x)]
    case Failing => [WriterTake(x)] + [WriterFail(x)]
  }

  lemma WroteNone(s: Session)
    ensures Wrote(s, 0) == s
  {
    assert s.send[0..] == s.send && s.send[..0] == [];
  }

  lemma WroteOneMore(s: Session, k: nat)
    requires k < |s.send|
    ensures var t := Wrote(s, k);
      && t.send != [] && t.send[0] == s.send[k]
      && Wrote(s, k + 1)
         == t.(send := t.send[1..], h := t.h.(taken := t.h.taken + [t.send[0]], written := t.h.written + [t.send[0]]))
  {
    assert s.send[..k + 1] == s.send[..k] + [s.send[k]];
    assert s.send[k..][1..] == s.send[k + 1..];
  }

  lemma EndedOn(s: Session, k: nat, exit: Exit)
    requires k <= |s.send|
    ensures Ended(Wrote(s, k), 0, exit) == Ended(s, k, exit)
  {
    WroteNone(Wrote(s, k));
  }

  lemma UpdateTwice(r: Room, x: SessionId, s: Session, t: Session)
    ensures Update(Update(r, x, s), x, t) == Update(r, x, t)
  {}

  lemma OneWriteRuns(r: Room, acts: seq<Action>, t: Room, x: SessionId)
    requires Run(r, acts, t) && MayWrite(t, x) && t.sessions[x].send != []
    ensures Run(r, acts + [WriterTake(x)] + [WriterWrote(x)], Update(t, x, Wrote(t.sessions[x], 1)))
  {
    var s := t.sessions[x];
    var u := Next(t, WriterTake(x));
    RunSnoc(r, acts, t, WriterTake(x));
    RunSnoc(r, acts + [WriterTake(x)], u, WriterWrote(x));
    OneWriteShape(t, x);
  }

  lemma OneWriteShape(t: Room, x: SessionId)
    requires MayWrite(t, x) && t.sessions[x].send != []
    ensures Enabled(Next(t, WriterTake(x)), WriterWrote(x))
    ensures Next(Next(t, WriterTake(x)), WriterWrote(x)) == Update(t, x, Wrote(t.sessions[x], 1))
  {
    WroteNone(t.sessions[x]);
    WroteOneMore(t.sessions[x], 0);
    assert Next(Next(t, WriterTake(x)), WriterWrote(x)).sessions == t.sessions[x := Wrote(t.sessions[x], 1)];
  }

  lemma {:induction false} WritesRunOn(r: Room, x: SessionId, k: nat)
    requires MayWrite(r, x) && k <= |r.sessions[x].send|
    ensures Run(r, WriteActions(x, k), Update(r, x, Wrote(r.sessions[x], k)))
  {
    var s := r.sessions[x];
    if k == 0 {
      WroteNone(s);
      assert Update(r, x, s) == r;
    } else {
      var t := Update(r, x, Wrote(s, k - 1));
      WritesRunOn(r, x, k - 1);
      WroteOneMore(s, k - 1);
      WroteOneMore(Wrote(s, k - 1), 0);
      WroteNone(Wrote(s, k - 1));
      OneWriteRuns(r, WriteActions(x, k - 1), t, x);
      UpdateTwice(r, x, Wrote(s, k - 1), Wrote(s, k));
    }
  }

  lemma LastRuns(r: Room, acts: seq<Action>, t: Room, x: SessionId, exit: Exit)
    requires Run(r, acts, t) && MayWrite(t, x)
    requires exit == Draining ==> t.sessions[x].send == [] && t.sessions[x].closed
    requires exit == Failing ==> t.sessions[x].send != []
    requires exit == Stopping ==> t.cancelled
    ensures Run(r, acts + LastActions(x, exit), Update(t, x, Ended(t.sessions[x], 0, exit)))
  {
    var s := t.sessions[x];
    WroteNone(s);
    assert Update(t, x, s) == t;
    match exit
    case Blocking => assert acts + [] == acts;
    case Draining => RunSnoc(r, acts, t, WriterDrained(x));
    case Stopping => RunSnoc(r, acts, t, WriterStop(x));
    case Failing => FailRuns(r, acts, t, x);
  }

  lemma FailRuns(r: Room, acts: seq<Action>, t: Room, x: SessionId)
    requires Run(r, acts, t) && MayWrite(t, x) && t.sessions[x].send != []
    ensures Run(r, acts + ([WriterTake(x)] + [WriterFail(x)]), Update(t, x, Ended(t.sessions[x], 0, Failing)))
  {
    var u := Next(t, WriterTake(x));
    RunSnoc(r, acts, t, WriterTake(x));
    RunSnoc(r, acts + [WriterTake(x)], u, WriterFail(x));
    WroteNone(t.sessions[x]);
    assert Next(u, WriterFail(x)).sessions == t.sessions[x := Ended(t.sessions[x], 0, Failing)];
    assert acts + [WriterTake(x)] + [WriterFail(x)] == acts + ([WriterTake(x)] + [WriterFail(x)]);
  }

  /** The writer's loop, with the exit it takes, is a run. */
  lemma WritesRun(r: Room, x: SessionId, k: nat, exit: Exit)
    requires MayWrite(r, x) && k <= |r.sessions[x].send|
    requires exit == Draining ==> k == |r.sessions[x].send| && r.sessions[x].closed
    requires exit == Failing ==> k < |r.sessions[x].send|
    requires exit == Stopping ==> r.cancelled
    ensures Run(r, WriteActions(x, k) + LastActions(x, exit), Update(r, x, Ended(r.sessions[x], k, exit)))
  {
    var s := r.sessions[x];
    var t := Update(r, x, Wrote(s, k));
    WritesRunOn(r, x, k);
    LastRuns(r, WriteActions(x, k), t, x, exit);
    EndedOn(s, k, exit);
    UpdateTwice(r, x, Wrote(s, k), Ended(s, k, exit));
  }

  /** Whatever the exit, what is written is what came first in Send. */
  lemma EndedFacts(s: Session, k: nat, exit: Exit)
    requires k <= |s.send|
    ensures var t := Ended(s, k, exit);
      && t.h.written == s.h.written + s.send[..k] && t.h.taken + t.send == s.h.taken + s.send
      && t.phase == s.phase && t.closed == s.closed && t.h.offered == s.h.offered
  {
    assert s.send[..k] + s.send[k..] == s.send;
    assert s.h.taken + s.send[..k] + s.send[k..] == s.h.taken + s.send;
    if exit == Failing && k < |s.send| {
      var rest := s.send[k..];
      assert rest == [rest[0]] + rest[1..];
      assert s.h.taken + s.send[..k] + [rest[0]] + rest[1..] == s.h.taken + s.send[..k] + rest;
    }
  }

  // ------------------------------------------------ extending a run by a step

  lemma ProcessFanRuns(start: Room, trace: seq<Action>, r: Room)
    requires Run(start, trace, r) && r.loop.Holding? && !Removal(r.loop.event) && ReadLockFree(r)
    ensures Run(start, trace + [Process], AfterProcess(r))
  {
    RunSnoc(start, trace, r, Process);
  }

  lemma ProcessRemovalRuns(start: Room, trace: seq<Action>, r: Room)
    requires Safe(r) && Run(start, trace, r) && r.loop.Holding? && Removal(r.loop.event) && LockFree(r)
    ensures Safe(AfterProcess(r)) && Run(start, trace + [Process], AfterProcess(r))
  {
    ProcessRemovalSafe(r);
    RunSnoc(start, trace, r, Process);
  }

  lemma FanOneRuns(start: Room, trace: seq<Action>, r: Room, u: UserId)
    requires Run(start, trace, r) && r.loop.Fanning? && u in r.loop.pending
    ensures Run(start, trace + [FanOne(u)], AfterFanOne(r, u))
  {
    RunSnoc(start, trace, r, FanOne(u));
  }

  lemma EndFanRuns(start: Room, trace: seq<Action>, r: Room)
    requires Run(start, trace, r) && r.loop.Fanning? && r.loop.pending == {}
    ensures Run(start, trace + [EndFan], r.(loop := Selecting))
  {
    RunSnoc(start, trace, r, EndFan);
  }

  lemma ReceiveRuns(r: Room)
    requires Safe(r) && r.loop == Selecting && r.broadcast != []
    ensures Safe(AfterReceive(r)) && Run(r, [Receive], AfterReceive(r))
  {
    ReceiveSafe(r);
    RunOne(r, Receive);
  }

  lemma SeeCancelRuns(r: Room)
    requires Safe(r) && Enabled(r, SeeCancel)
    ensures Safe(r.(loop := Closing(r.users.Keys))) && Run(r, [SeeCancel], r.(loop := Closing(r.users.Keys)))
  {
    LoopMovesSafe(r, Closing(r.users.Keys));
    RunOne(r, SeeCancel);
  }

  lemma CloseOneRuns(start: Room, trace: seq<Action>, r: Room, u: UserId)
    requires Safe(r) && Run(start, trace, r) && r.loop.Closing? && u in r.loop.leftOpen
    ensures Safe(AfterCloseOne(r, u)) && Run(start, trace + [CloseOne(u)], AfterCloseOne(r, u))
  {
    CloseOneSafe(r, u);
    RunSnoc(start, trace, r, CloseOne(u));
  }

  lemma AllClosed(r: Room)
    requires Members(r) && Sends(r) && r.loop.Closing? && r.loop.leftOpen == {}
    ensures forall u :: u in r.users ==> r.users[u] in r.sessions && r.sessions[r.users[u]].closed
  {}

  lemma EndCloseRuns(start: Room, trace: seq<Action>, r: Room)
    requires Safe(r) && Run(start, trace, r) && r.loop.Closing? && r.loop.leftOpen == {}
    ensures Safe(r.(loop := Exited)) && Run(start, trace + [EndClose], r.(loop := Exited))
  {
    LoopMovesSafe(r, Exited);
    RunSnoc(start, trace, r, EndClose);
  }

  lemma RunOne(r: Room, a: Action)
    requires Enabled(r, a)
    ensures Run(r, [a], Next(r, a))
  {
    assert Run(r, [], r) && [] + [a] == [a];
    RunSnoc(r, [], r, a);
  }
}
