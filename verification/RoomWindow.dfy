/** What each session of a room is sent, in every run: exactly the fan-outs
    begun between its join and its removal, in order, each either put into its
    Send or counted as dropped. */
module RoomWindow {
  import opened Basics
  import opened Models
  import opened RoomProtocol
  import opened RoomSafety
  import opened RoomEvolution

  // -------------------------------------------------------------- vocabulary

  /** The responses among a sequence of events, in order. */
  function FanItems(es: seq<RoomEvent>): seq<Item> {
    if es == [] then []
    else
      var last := es[|es| - 1];
      FanItems(es[..|es| - 1]) + if Removal(last) then [] else [last.item]
  }

  /** The items a client's Send accepted, in order. */
  function Accepted(os: seq<Offer>): seq<Item> {
    if os == [] then []
    else
      var last := os[|os| - 1];
      Accepted(os[..|os| - 1]) + if last.accepted then [last.item] else []
  }

  lemma {:induction false} FanItemsConcat(a: seq<RoomEvent>, b: seq<RoomEvent>)
    ensures FanItems(a + b) == FanItems(a) + FanItems(b)
  {
    if b == [] {
      assert a + b == a;
    } else {
      assert (a + b)[..|a + b| - 1] == a + b[..|b| - 1];
      FanItemsConcat(a, b[..|b| - 1]);
    }
  }

  lemma FanItemsPrefix(es: seq<RoomEvent>, k: nat)
    requires k <= |es|
    ensures |FanItems(es[..k])| <= |FanItems(es)|
  {
    assert es == es[..k] + es[k..];
    FanItemsConcat(es[..k], es[k..]);
  }

  lemma FanItemsSnoc(es: seq<RoomEvent>, k: nat)
    requires k < |es|
    ensures FanItems(es[..k + 1]) == FanItems(es[..k]) + if Removal(es[k]) then [] else [es[k].item]
  {
    assert es[..k + 1][..k] == es[..k];
  }

  lemma AcceptedSnoc(os: seq<Offer>, o: Offer)
    ensures Accepted(os + [o]) == Accepted(os) + if o.accepted then [o.item] else []
  {
    assert (os + [o])[..|os|] == os;
  }

  /** The fan-outs begun before session s stopped being offered any; the one
      in progress counts once the loop has reached s. */
  function End(r: Room, s: Session): int {
    if s.h.gone.Some? then s.h.gone.value
    else if r.loop.Fanning? && s.user in r.loop.pending then |r.h.fanned| - 1
    else |r.h.fanned|
  }

  // -------------------------------------------------------------- invariants

  /** The fan-outs begun are the responses among the events looked at. */
  ghost predicate Fanned(r: Room) {
    && 0 <= Done(r) <= |r.h.enqueued|
    && r.h.fanned == FanItems(r.h.enqueued[..Done(r)])
    && (r.loop.Fanning? ==> r.h.fanned != [] && r.h.fanned[|r.h.fanned| - 1] == r.loop.item)
  }

  /** s has been offered the items fanned[joinedAt..e], one by one. */
  ghost predicate OfferedUpTo(fanned: seq<Item>, h: SessionHistory, e: int) {
    && h.joinedAt <= e <= |fanned|
    && |h.offered| == e - h.joinedAt
    && forall i :: 0 <= i < |h.offered| ==> h.offered[i].item == fanned[h.joinedAt + i]
  }

  ghost predicate Windows(r: Room) {
    forall x :: x in r.sessions ==> OfferedUpTo(r.h.fanned, r.sessions[x].h, End(r, r.sessions[x]))
  }

  /** Send holds what was accepted and not yet taken; the writer has written
      what it took, but for the item in its hand or the one it failed on. */
  ghost predicate Outbox(s: Session) {
    && Accepted(s.h.offered) == s.h.taken + s.send
    && s.h.written <= s.h.taken
    && (s.writer.Waiting? || s.writer.Drained? || s.writer.Stopped? ==> s.h.written == s.h.taken)
    && (s.writer.Writing? ==> s.h.taken == s.h.written + [s.writer.item])
    && (s.writer.Drained? ==> s.closed && s.send == [])
  }

  ghost predicate Outboxes(r: Room) {
    forall x :: x in r.sessions ==> Outbox(r.sessions[x]) && |r.sessions[x].send| <= r.cap
  }

  /** Where a session joined and was removed, measured in enqueued events. */
  ghost predicate Mark(enqueued: seq<RoomEvent>, h: SessionHistory) {
    && h.enqueuedAtJoin <= |enqueued|
    && h.joinedAt <= |FanItems(enqueued[..h.enqueuedAtJoin])|
    && (h.queuedAt.Some? ==>
          h.enqueuedAtJoin <= h.queuedAt.value < |enqueued|
          && (h.removed ==> h.gone == Some(|FanItems(enqueued[..h.queuedAt.value])|)))
  }

  ghost predicate Marks(r: Room) {
    forall x :: x in r.sessions ==> Mark(r.h.enqueued, r.sessions[x].h)
  }

  ghost predicate Counted(r: Room) {
    && r.h.localTries == r.h.localPushes + r.droppedBroadcast
    && r.h.audience == r.h.puts + r.droppedSend + if r.loop.Fanning? then |r.loop.pending| else 0
  }

  ghost predicate Recorded(r: Room) {
    Fanned(r) && Windows(r) && Outboxes(r) && Marks(r) && Counted(r)
  }

  // ----------------------------------------------------- one session changes

  /** Nothing that Windows and Marks look at has changed. */
  ghost predicate SamePast(s: Session, t: Session) {
    && t.user == s.user
    && t.h.joinedAt == s.h.joinedAt && t.h.enqueuedAtJoin == s.h.enqueuedAtJoin
    && t.h.gone == s.h.gone && t.h.removed == s.h.removed && t.h.queuedAt == s.h.queuedAt
    && t.h.offered == s.h.offered
  }

  lemma UpdateWindows(r: Room, x: SessionId, t: Session)
    requires Windows(r) && x in r.sessions && SamePast(r.sessions[x], t)
    ensures Windows(Update(r, x, t))
  {
    var q := Update(r, x, t);
    forall y | y in q.sessions ensures OfferedUpTo(q.h.fanned, q.sessions[y].h, End(q, q.sessions[y])) {
      assert End(q, q.sessions[y]) == End(r, r.sessions[y]);
    }
  }

  lemma UpdateMarks(r: Room, x: SessionId, t: Session)
    requires Marks(r) && x in r.sessions && SamePast(r.sessions[x], t)
    ensures Marks(Update(r, x, t))
  {}

  lemma UpdateRecorded(r: Room, x: SessionId, t: Session)
    requires Recorded(r) && x in r.sessions && SamePast(r.sessions[x], t)
    requires Outbox(t) && |t.send| <= r.cap
    ensures Recorded(Update(r, x, t))
  {
    UpdateWindows(r, x, t);
    UpdateMarks(r, x, t);
  }

  /** The room's own fields that Recorded looks at are unchanged. */
  ghost predicate SameRoom(r: Room, t: Room) {
    && t.sessions == r.sessions && t.cap == r.cap
    && t.h.enqueued == r.h.enqueued && t.h.fanned == r.h.fanned && Done(t) == Done(r)
    && t.loop.Fanning? == r.loop.Fanning? && (r.loop.Fanning? ==> t.loop == r.loop)
    && t.droppedSend == r.droppedSend && t.h.puts == r.h.puts && t.h.audience == r.h.audience
    && t.h.localTries - t.h.localPushes - t.droppedBroadcast == r.h.localTries - r.h.localPushes - r.droppedBroadcast
  }

  lemma SameRoomRecorded(r: Room, t: Room)
    requires Recorded(r) && SameRoom(r, t)
    ensures Recorded(t)
  {
    forall y | y in t.sessions ensures OfferedUpTo(t.h.fanned, t.sessions[y].h, End(t, t.sessions[y])) {
      assert End(t, t.sessions[y]) == End(r, r.sessions[y]);
    }
  }

  lemma EnqueueRecorded(r: Room, e: RoomEvent)
    requires Recorded(r)
    ensures Recorded(Enqueue(r, e))
  {
    var t := Enqueue(r, e);
    forall k: nat | k <= |r.h.enqueued| ensures t.h.enqueued[..k] == r.h.enqueued[..k] {}
    assert Fanned(t) && Outboxes(t) && Counted(t);
    assert Marks(t);
    forall y | y in t.sessions ensures OfferedUpTo(t.h.fanned, t.sessions[y].h, End(t, t.sessions[y])) {
      assert End(t, t.sessions[y]) == End(r, r.sessions[y]);
    }
  }

  // ---------------------------------------------------------- actions, one by one

  lemma EnterRecorded(r: Room, x: SessionId, join: Message)
    requires Recorded(r) && LockFree(r) && x !in r.sessions && join.userId !in r.users
    ensures Recorded(AfterEnter(r, x, join))
  {
    EnterMarks(r, x, join);
    EnterWindows(r, x, join);
    EnterCounts(r, x, join);
  }

  lemma EnterMarks(r: Room, x: SessionId, join: Message)
    requires Marks(r) && Fanned(r) && x !in r.sessions && join.userId !in r.users
    ensures Marks(AfterEnter(r, x, join))
  {
    FanItemsPrefix(r.h.enqueued, Done(r));
    assert r.h.enqueued[..|r.h.enqueued|] == r.h.enqueued;
  }

  lemma EnterWindows(r: Room, x: SessionId, join: Message)
    requires Windows(r) && LockFree(r) && x !in r.sessions && join.userId !in r.users
    ensures Windows(AfterEnter(r, x, join))
  {}

  lemma EnterCounts(r: Room, x: SessionId, join: Message)
    requires Fanned(r) && Outboxes(r) && Counted(r) && x !in r.sessions && join.userId !in r.users
    ensures var t := AfterEnter(r, x, join); Fanned(t) && Outboxes(t) && Counted(t)
  {}

  lemma SayRecorded(r: Room, x: SessionId, m: Message, leaving: bool, created: string, stamped: string)
    requires Recorded(r) && x in r.sessions
    ensures Recorded(Say(r, x, m, leaving, created, stamped))
  {
    var t := Say(r, x, m, leaving, created, stamped);
    var q := Update(r, x, t.sessions[x]);
    UpdateRecorded(r, x, t.sessions[x]);
    if Full(r) {
      SameRoomRecorded(q, t);
    } else {
      var e := t.broadcast[|r.broadcast|];
      EnqueueRecorded(q, e);
      SameRoomRecorded(Enqueue(q, e), t);
    }
  }

  lemma ScheduleMarks(r: Room, x: SessionId)
    requires Marks(r) && At(r, x, Scheduling) && !Full(r) && PhaseOk(r.sessions[x])
    ensures Marks(AfterSchedule(r, x))
  {
    forall k: nat | k <= |r.h.enqueued| ensures (r.h.enqueued + [RemovalEvent(r, x)])[..k] == r.h.enqueued[..k] {}
  }

  lemma ScheduleRecorded(r: Room, x: SessionId)
    requires Recorded(r) && At(r, x, Scheduling) && !Full(r) && PhaseOk(r.sessions[x])
    ensures Recorded(AfterSchedule(r, x))
  {
    var e := RemovalEvent(r, x);
    EnqueueRecorded(r, e);
    ScheduleMarks(r, x);
    ScheduleWindows(r, x);
    var q := Enqueue(r, e);
    var t := AfterSchedule(r, x);
    assert t.h == q.h && t.loop == q.loop;
  }

  lemma ScheduleWindows(r: Room, x: SessionId)
    requires Windows(r) && At(r, x, Scheduling) && !Full(r)
    ensures Windows(AfterSchedule(r, x))
  {
    var t := AfterSchedule(r, x);
    forall y | y in t.sessions ensures OfferedUpTo(t.h.fanned, t.sessions[y].h, End(t, t.sessions[y])) {
      assert End(t, t.sessions[y]) == End(r, r.sessions[y]);
    }
  }

  lemma ProcessFanRecorded(r: Room)
    requires Members(r) && Sends(r) && Queue(r) && Recorded(r) && r.loop.Holding? && !Removal(r.loop.event)
    ensures Recorded(AfterProcess(r))
  {
    var t := AfterProcess(r);
    FanItemsSnoc(r.h.enqueued, Done(r));
    assert Fanned(t);
    assert Outboxes(t) && Counted(t) && Marks(t);
    forall y | y in t.sessions ensures OfferedUpTo(t.h.fanned, t.sessions[y].h, End(t, t.sessions[y])) {
      assert End(t, t.sessions[y]) == End(r, r.sessions[y]);
      assert OfferedUpTo(r.h.fanned, r.sessions[y].h, End(r, r.sessions[y]));
    }
  }

  lemma EvictWindows(r: Room, u: UserId)
    requires Windows(r) && u in r.users && r.users[u] in r.sessions && !r.loop.Fanning? && Sends(r)
    ensures Windows(Evict(r, u))
  {
    var t := Evict(r, u);
    forall y | y in t.sessions ensures OfferedUpTo(t.h.fanned, t.sessions[y].h, End(t, t.sessions[y])) {
      assert End(t, t.sessions[y]) == End(r, r.sessions[y]);
    }
  }

  /** What makes the mark of an evicted session right. */
  ghost predicate EvictedOnTime(r: Room, s: Session) {
    s.h.queuedAt.Some? ==>
      !s.closed && s.h.queuedAt.value <= |r.h.enqueued| && r.h.fanned == FanItems(r.h.enqueued[..s.h.queuedAt.value])
  }

  lemma EvictMarks(r: Room, u: UserId)
    requires Marks(r) && u in r.users && r.users[u] in r.sessions && EvictedOnTime(r, r.sessions[r.users[u]])
    ensures Marks(Evict(r, u))
  {}

  lemma EvictOutboxes(r: Room, u: UserId)
    requires Outboxes(r) && u in r.users && r.users[u] in r.sessions
    ensures Outboxes(Evict(r, u))
  {}

  lemma EvictRecorded(r: Room, u: UserId)
    requires Recorded(r) && u in r.users && r.users[u] in r.sessions && !r.loop.Fanning? && Sends(r)
    requires EvictedOnTime(r, r.sessions[r.users[u]])
    ensures Recorded(Evict(r, u))
  {
    EvictWindows(r, u);
    EvictMarks(r, u);
    EvictOutboxes(r, u);
  }

  lemma CloseOneRecorded(r: Room, u: UserId)
    requires Members(r) && Recorded(r) && Sends(r) && r.loop.Closing? && u in r.loop.leftOpen
    ensures Recorded(AfterCloseOne(r, u))
  {
    CloseOneWindows(r, u);
    CloseOneMarks(r, u);
  }

  lemma CloseOneMarks(r: Room, u: UserId)
    requires Members(r) && Marks(r) && Outboxes(r) && r.loop.Closing? && u in r.loop.leftOpen
    ensures Marks(AfterCloseOne(r, u)) && Outboxes(AfterCloseOne(r, u))
  {}

  lemma CloseOneWindows(r: Room, u: UserId)
    requires Members(r) && Windows(r) && Sends(r) && r.loop.Closing? && u in r.loop.leftOpen
    ensures Windows(AfterCloseOne(r, u))
  {
    var t := AfterCloseOne(r, u);
    forall y | y in t.sessions ensures OfferedUpTo(t.h.fanned, t.sessions[y].h, End(t, t.sessions[y])) {
      assert End(t, t.sessions[y]) == End(r, r.sessions[y]);
    }
  }

  lemma OfferedOutbox(s: Session, item: Item, cap: nat)
    requires Outbox(s) && |s.send| <= cap && !s.closed
    ensures Outbox(Offered(s, item, cap)) && |Offered(s, item, cap).send| <= cap
  {
    AcceptedSnoc(s.h.offered, Offer(item, |s.send| < cap));
  }

  lemma FanOneOutboxes(r: Room, u: UserId)
    requires Outboxes(r) && r.loop.Fanning?
    ensures Outboxes(AfterFanOne(r, u))
  {
    if u in r.users && r.users[u] in r.sessions && !r.sessions[r.users[u]].closed {
      OfferedOutbox(r.sessions[r.users[u]], r.loop.item, r.cap);
    }
  }

  lemma OfferedWindow(fanned: seq<Item>, s: Session, item: Item, cap: nat)
    requires fanned != [] && fanned[|fanned| - 1] == item && OfferedUpTo(fanned, s.h, |fanned| - 1)
    ensures OfferedUpTo(fanned, Offered(s, item, cap).h, |fanned|)
  {}

  lemma FanOneWindows(r: Room, u: UserId)
    requires Members(r) && Sends(r) && Windows(r) && Fanned(r) && r.loop.Fanning? && u in r.loop.pending
    ensures Windows(AfterFanOne(r, u))
  {
    PendingMemberIsOpen(r, u);
    var x := r.users[u];
    var t := AfterFanOne(r, u);
    OfferedWindow(r.h.fanned, r.sessions[x], r.loop.item, r.cap);
    forall y | y in t.sessions ensures OfferedUpTo(t.h.fanned, t.sessions[y].h, End(t, t.sessions[y])) {
      if y != x {
        assert t.sessions[y] == r.sessions[y];
        assert End(t, t.sessions[y]) == End(r, r.sessions[y]);
      }
    }
  }

  lemma FanOneMarks(r: Room, u: UserId)
    requires Marks(r) && r.loop.Fanning?
    ensures Marks(AfterFanOne(r, u))
  {}

  lemma FanOneCounted(r: Room, u: UserId)
    requires Members(r) && Sends(r) && Counted(r) && r.loop.Fanning? && u in r.loop.pending
    ensures Counted(AfterFanOne(r, u))
  {
    PendingMemberIsOpen(r, u);
    assert |r.loop.pending - {u}| == |r.loop.pending| - 1;
  }

  lemma FanOneFanned(r: Room, u: UserId)
    requires Fanned(r) && r.loop.Fanning?
    ensures Fanned(AfterFanOne(r, u))
  {}

  lemma FanOneRecorded(r: Room, u: UserId)
    requires Members(r) && Sends(r) && Recorded(r) && r.loop.Fanning? && u in r.loop.pending
    ensures Recorded(AfterFanOne(r, u))
  {
    FanOneOutboxes(r, u);
    FanOneWindows(r, u);
    FanOneMarks(r, u);
    FanOneCounted(r, u);
    FanOneFanned(r, u);
  }

  lemma ProcessRemovalRecorded(r: Room)
    requires Safe(r) && Recorded(r) && r.loop.Holding? && Removal(r.loop.event) && LockFree(r)
    ensures Recorded(AfterProcess(r))
  {
    HeldRemovalFindsItsSession(r);
    var u := r.loop.event.removeUserId;
    EvictRecorded(r, u);
    UnlistingRecorded(Evict(r, u), u);
  }

  lemma UnlistingRecorded(r: Room, u: UserId)
    requires Recorded(r) && r.loop.Holding? && Removal(r.loop.event)
    requires r.h.received > 0 && r.h.received <= |r.h.enqueued| && r.loop.event == r.h.enqueued[r.h.received - 1]
    ensures Recorded(r.(loop := Unlisting(u)))
  {
    var t := r.(loop := Unlisting(u));
    FanItemsSnoc(r.h.enqueued, Done(r));
    forall y | y in t.sessions ensures OfferedUpTo(t.h.fanned, t.sessions[y].h, End(t, t.sessions[y])) {
      assert End(t, t.sessions[y]) == End(r, r.sessions[y]);
    }
  }

  lemma EndFanRecorded(r: Room)
    requires Recorded(r) && r.loop.Fanning? && r.loop.pending == {}
    ensures Recorded(r.(loop := Selecting))
  {
    var t := r.(loop := Selecting);
    forall y | y in t.sessions ensures OfferedUpTo(t.h.fanned, t.sessions[y].h, End(t, t.sessions[y])) {
      assert End(t, t.sessions[y]) == End(r, r.sessions[y]);
    }
  }

  lemma PhaseRecorded(r: Room, x: SessionId, p: Phase)
    requires Recorded(r) && x in r.sessions
    ensures Recorded(SetPhase(r, x, p))
  {
    UpdateRecorded(r, x, r.sessions[x].(phase := p));
  }

  // ---------------------------------------------------------------- every run

  lemma HandlerRecorded(r: Room, a: Action)
    requires Safe(r) && Recorded(r) && Enabled(r, a)
    requires a.Enter? || a.Indexed? || a.Greet? || a.Hear? || a.Handoff? || a.Depart?
    ensures Recorded(Next(r, a))
  {
    match a
    case Enter(x, join) => if join.userId !in r.users { EnterRecorded(r, x, join); }
    case Indexed(x) => PhaseRecorded(r, x, Greeting); SameRoomRecorded(SetPhase(r, x, Greeting), Next(r, a));
    case Greet(x, created, stamped) => SayRecorded(r, x, r.sessions[x].join, false, created, stamped);
    case Hear(x, input, created, stamped) => HearRecorded(r, x, input, created, stamped);
    case Handoff(x) => PhaseRecorded(r, x, if r.sessions[x].phase.leaving then Scheduling else Reading);
    case Depart(x) => PhaseRecorded(r, x, Departed);
  }

  lemma HearRecorded(r: Room, x: SessionId, input: Input, created: string, stamped: string)
    requires Recorded(r) && x in r.sessions
    ensures Recorded(AfterHear(r, x, input, created, stamped))
  {
    match Reaction(r.sessions[x], input)
    case None =>
    case Some((m, leaving)) =>
      if leaving {
        SayRecorded(r, x, m, leaving, created, stamped);
      } else {
        UpdateRecorded(r, x, CountText(r, x).sessions[x]);
        SayRecorded(CountText(r, x), x, m, leaving, created, stamped);
      }
  }

  lemma LeaverRecorded(r: Room, a: Action)
    requires Safe(r) && Recorded(r) && Enabled(r, a)
    requires a.Schedule? || a.Unindexed? || a.Remote? || a.Cancel?
    ensures Recorded(Next(r, a))
  {
    if a.Schedule? {
      assert PhaseOk(r.sessions[a.x]);
      ScheduledRecorded(r, a.x);
    } else if a.Unindexed? {
      PhaseRecorded(r, a.x, Awaiting);
      SameRoomRecorded(SetPhase(r, a.x, Awaiting), Next(r, a));
    } else if a.Remote? && !Full(r) {
      EnqueueRecorded(r, RoomEvent(a.item, ""));
    } else {
      SameRoomRecorded(r, Next(r, a));
    }
  }

  lemma ScheduledRecorded(r: Room, x: SessionId)
    requires Recorded(r) && At(r, x, Scheduling) && PhaseOk(r.sessions[x])
    ensures Recorded(AfterSchedule(r, x))
  {
    if Full(r) {
      PhaseRecorded(r, x, FallingBack);
      SameRoomRecorded(SetPhase(r, x, FallingBack), AfterSchedule(r, x));
    } else {
      ScheduleRecorded(r, x);
    }
  }

  lemma RemoveDirectRecorded(r: Room, x: SessionId)
    requires Safe(r) && Recorded(r) && LockFree(r) && At(r, x, FallingBack)
    ensures Recorded(AfterRemoveDirect(r, x))
  {
    var u := r.sessions[x].user;
    FallbackFindsItsSession(r, x);
    assert PhaseOk(r.sessions[x]);
    EvictRecorded(r, u);
    PhaseRecorded(Evict(r, u), x, Unindexing);
    SameRoomRecorded(SetPhase(Evict(r, u), x, Unindexing), AfterRemoveDirect(r, x));
  }

  lemma LoopRecorded(r: Room, a: Action)
    requires Safe(r) && Recorded(r) && Enabled(r, a) && OfLoop(a)
    ensures Recorded(Next(r, a))
  {
    if a.Process? {
      if Removal(r.loop.event) { ProcessRemovalRecorded(r); } else { ProcessFanRecorded(r); }
    } else if a.FanOne? {
      FanOneRecorded(r, a.u);
    } else if a.EndFan? {
      EndFanRecorded(r);
    } else if a.CloseOne? {
      CloseOneRecorded(r, a.u);
    } else {
      LoopMoveRecorded(r, a);
    }
  }

  lemma LoopMoveRecorded(r: Room, a: Action)
    requires Queue(r) && Recorded(r) && Enabled(r, a) && (a.Receive? || a.Unlist? || a.SeeCancel? || a.EndClose?)
    ensures Recorded(Next(r, a))
  {
    SameRoomRecorded(r, Next(r, a));
  }

  lemma WriterRecorded(r: Room, a: Action)
    requires Recorded(r) && Enabled(r, a) && OfWriter(a)
    ensures Recorded(Next(r, a))
  {
    WriterOutbox(r, a);
    UpdateRecorded(r, a.x, Next(r, a).sessions[a.x]);
  }

  lemma WriterTakeOutbox(s: Session)
    requires Outbox(s) && s.writer.Waiting? && s.send != []
    ensures Outbox(s.(send := s.send[1..], writer := Writing(s.send[0]), h := s.h.(taken := s.h.taken + [s.send[0]])))
  {
    assert s.h.taken + s.send == s.h.taken + [s.send[0]] + s.send[1..];
  }

  lemma WriterOutbox(r: Room, a: Action)
    requires Outboxes(r) && Enabled(r, a) && OfWriter(a)
    ensures var s, t := r.sessions[a.x], Next(r, a).sessions[a.x];
            Next(r, a) == Update(r, a.x, t) && SamePast(s, t) && Outbox(t) && |t.send| <= r.cap
  {
    WriterShape(r, a);
    if a.WriterTake? {
      WriterTakeOutbox(r.sessions[a.x]);
    } else {
      WriterRestOutbox(r, a);
    }
  }

  lemma WriterRestOutbox(r: Room, a: Action)
    requires Enabled(r, a) && OfWriter(a) && !a.WriterTake? && Outbox(r.sessions[a.x])
    ensures Outbox(Next(r, a).sessions[a.x]) && Next(r, a).sessions[a.x].send == r.sessions[a.x].send
  {}

  lemma RecordedKept(r: Room, a: Action)
    requires Safe(r) && Recorded(r) && Enabled(r, a)
    ensures Recorded(Next(r, a))
  {
    if a.Enter? || a.Indexed? || a.Greet? || a.Hear? || a.Handoff? || a.Depart? {
      HandlerRecorded(r, a);
    } else if a.RemoveDirect? {
      RemoveDirectRecorded(r, a.x);
    } else if a.Schedule? || a.Unindexed? || a.Remote? || a.Cancel? {
      LeaverRecorded(r, a);
    } else if OfWriter(a) {
      WriterRecorded(r, a);
    } else {
      LoopRecorded(r, a);
    }
  }

  lemma {:induction false} RecordedAlways(r: Room, acts: seq<Action>, t: Room)
    requires Safe(r) && Recorded(r) && Run(r, acts, t)
    ensures Safe(t) && Recorded(t)
    decreases |acts|
  {
    if acts != [] {
      SafeKept(r, acts[0]);
      RecordedKept(r, acts[0]);
      RecordedAlways(Next(r, acts[0]), acts[1..], t);
    }
  }

  lemma RecordedFromStart(server: ServerId, id: RoomId, cap: nat, acts: seq<Action>, r: Room)
    requires Run(NewRoom(server, id, cap), acts, r)
    ensures Safe(r) && Recorded(r)
  {
    RecordedAlways(NewRoom(server, id, cap), acts, r);
  }

  // ------------------------------------------------------------- main results

  function Items(os: seq<Offer>): (items: seq<Item>)
    ensures |items| == |os| && forall i :: 0 <= i < |os| ==> items[i] == os[i].item
  {
    if os == [] then [] else [os[0].item] + Items(os[1..])
  }

  lemma OfferedSlice(fanned: seq<Item>, h: SessionHistory, e: int)
    requires OfferedUpTo(fanned, h, e)
    ensures Items(h.offered) == fanned[h.joinedAt..e]
  {}

  lemma OutboxFacts(r: Room, x: SessionId)
    requires Outboxes(r) && x in r.sessions
    ensures var s := r.sessions[x];
            && s.h.written <= Accepted(s.h.offered)
            && (s.writer.Drained? ==> s.h.written == Accepted(s.h.offered))
  {
    var s := r.sessions[x];
    assert Outbox(s);
    assert s.h.taken <= s.h.taken + s.send;
  }

  /** The session window: what a session is offered is exactly the slice of
      the room's fan-outs from its join to its removal or the shutdown; its
      Send has accepted a subsequence of that slice; its writer wrote a prefix
      of what Send accepted, all of it if it ended without write error or
      cancellation. */
  lemma SessionWindow(server: ServerId, id: RoomId, cap: nat, acts: seq<Action>, r: Room, x: SessionId)
    requires Run(NewRoom(server, id, cap), acts, r) && x in r.sessions
    ensures var s := r.sessions[x];
            && 0 <= s.h.joinedAt <= End(r, s) <= |r.h.fanned|
            && Items(s.h.offered) == r.h.fanned[s.h.joinedAt..End(r, s)]
            && s.h.written <= Accepted(s.h.offered)
            && (s.writer.Drained? ==> s.h.written == Accepted(s.h.offered))
            && (s.h.removed ==> s.h.gone.Some?)
  {
    RecordedFromStart(server, id, cap, acts, r);
    OfferedSlice(r.h.fanned, r.sessions[x].h, End(r, r.sessions[x]));
    OutboxFacts(r, x);
  }

  lemma SliceSuffix(a: seq<Item>, b: seq<Item>, c: seq<Item>, j: nat)
    requires j <= |a|
    ensures var o := (a + b + c)[j..|a| + |b|];
            |b| <= |o| && o[|o| - |b|..] == b
  {}

  lemma OwedSuffix(enqueued: seq<RoomEvent>, done: nat, h: SessionHistory)
    requires Mark(enqueued, h) && h.queuedAt.Some? && h.removed && h.queuedAt.value < done <= |enqueued|
    requires h.gone.Some? && OfferedUpTo(FanItems(enqueued[..done]), h, h.gone.value)
    ensures var owed := FanItems(enqueued[h.enqueuedAtJoin..h.queuedAt.value]);
            |owed| <= |h.offered| && Items(h.offered)[|h.offered| - |owed|..] == owed
  {
    var k := h.queuedAt.value;
    var before, between, after := enqueued[..h.enqueuedAtJoin], enqueued[h.enqueuedAtJoin..k], enqueued[k..done];
    assert enqueued[..k] == before + between;
    assert enqueued[..done] == enqueued[..k] + after;
    FanItemsConcat(before, between);
    FanItemsConcat(enqueued[..k], after);
    OfferedSlice(FanItems(enqueued[..done]), h, h.gone.value);
    SliceSuffix(FanItems(before), FanItems(between), FanItems(after), h.joinedAt);
  }

  /** A session whose queued removal was carried out was offered, last of all,
      every response enqueued after its join and ahead of the removal. */
  lemma InOrderRemoval(server: ServerId, id: RoomId, cap: nat, acts: seq<Action>, r: Room, x: SessionId)
    requires Run(NewRoom(server, id, cap), acts, r) && x in r.sessions
    requires r.sessions[x].h.removed && r.sessions[x].h.queuedAt.Some?
    ensures var h := r.sessions[x].h;
            && h.enqueuedAtJoin <= h.queuedAt.value < |r.h.enqueued|
            && r.h.enqueued[h.queuedAt.value] == RemovalEvent(r, x)
            && var owed := FanItems(r.h.enqueued[h.enqueuedAtJoin..h.queuedAt.value]);
               |owed| <= |h.offered| && Items(h.offered)[|h.offered| - |owed|..] == owed
  {
    RecordedFromStart(server, id, cap, acts, r);
    var h := r.sessions[x].h;
    assert Mark(r.h.enqueued, h);
    assert OfferedUpTo(r.h.fanned, h, End(r, r.sessions[x]));
    OwedSuffix(r.h.enqueued, Done(r), h);
  }
}
