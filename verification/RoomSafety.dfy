/** Safety of one room in every run: who is in Users, which Sends are open,
    and whom a queued removal evicts. */
module RoomSafety {
  import opened Basics
  import opened Models
  import opened RoomProtocol
  import opened RoomEvolution

  // -------------------------------------------------------------- invariants

  /** Users and the sessions not yet removed are the two directions of one
      bijection between present user ids and present sessions. */
  ghost predicate Members(r: Room) {
    && (forall u :: u in r.users ==>
          r.users[u] in r.sessions && r.sessions[r.users[u]].user == u && !r.sessions[r.users[u]].h.removed)
    && (forall x :: x in r.sessions && !r.sessions[x].h.removed ==>
          r.sessions[x].user in r.users && r.users[r.sessions[x].user] == x)
  }

  /** Room.Mu has at most one exclusive holder, and none while it is read-held. */
  ghost predicate Locks(r: Room) {
    && (forall x :: x in r.sessions && HoldsLock(r.sessions[x].phase) ==> r.holder == Some(x))
    && (r.holder.Some? ==>
          r.holder.value in r.sessions && HoldsLock(r.sessions[r.holder.value].phase)
          && !r.loop.Fanning? && !r.loop.Closing?)
  }

  /** A handler asks for its removal exactly once, after everything it says. */
  ghost predicate PhaseOk(s: Session) {
    match s.phase
    case Unindexing => s.h.removed && s.h.queuedAt.None?
    case Awaiting => s.h.removed || s.h.queuedAt.Some?
    case Departed => (s.h.removed || s.h.queuedAt.Some?) && WriterDone(s.writer)
    case _ => !s.h.removed && s.h.queuedAt.None?
  }

  ghost predicate Phases(r: Room) {
    forall x :: x in r.sessions ==> PhaseOk(r.sessions[x])
  }

  predicate Alive(r: Room) { !r.loop.Closing? && !r.loop.Exited? }

  /** While the goroutine lives, exactly the removed sessions have their Send
      closed; shutting down closes those of the members one by one. */
  ghost predicate Sends(r: Room) {
    && (forall x :: x in r.sessions ==>
          var s := r.sessions[x];
          && (s.h.removed ==> s.closed)
          && (s.closed && !s.h.removed ==> !Alive(r))
          && (s.closed <==> s.h.gone.Some?)
          && (r.loop.Closing? && !s.h.removed ==> (s.closed <==> s.user !in r.loop.leftOpen)))
    && (r.loop.Fanning? ==> r.loop.pending <= r.users.Keys)
    && (r.loop.Closing? ==> r.loop.leftOpen <= r.users.Keys)
    && !r.h.sentOnClosed
  }

  /** Events the goroutine has finished looking at. */
  function Done(r: Room): int { if r.loop.Holding? then r.h.received - 1 else r.h.received }

  /** Broadcast is what has been enqueued and not yet received. */
  ghost predicate Queue(r: Room) {
    && r.h.received <= |r.h.enqueued|
    && r.broadcast == r.h.enqueued[r.h.received..]
    && (r.loop.Holding? ==> r.h.received > 0 && r.loop.event == r.h.enqueued[r.h.received - 1])
    && |r.broadcast| <= r.cap
  }

  /** A queued removal was scheduled by one session, of that user id, which
      scheduled nothing else; until it is carried out that session is present. */
  ghost predicate Removals(r: Room) {
    && (forall k :: 0 <= k < |r.h.enqueued| && Removal(r.h.enqueued[k]) ==>
          var e := r.h.enqueued[k];
          e.item.tag.session in r.sessions && r.sessions[e.item.tag.session].h.queuedAt == Some(k)
          && r.sessions[e.item.tag.session].user == e.removeUserId)
    && (forall x :: x in r.sessions && r.sessions[x].h.queuedAt.Some? ==>
          var k := r.sessions[x].h.queuedAt.value;
          k < |r.h.enqueued| && r.h.enqueued[k] == RemovalEvent(r, x)
          && (r.sessions[x].h.removed <==> Removal(r.h.enqueued[k]) && k < Done(r)))
  }

  ghost predicate Safe(r: Room) {
    Members(r) && Locks(r) && Phases(r) && Sends(r) && Queue(r) && Removals(r)
  }

  // -------------------------------------------------- changes that keep Safe

  lemma MembersUpdate(r: Room, x: SessionId, t: Session)
    requires Members(r) && x in r.sessions
    requires t.user == r.sessions[x].user && t.h.removed == r.sessions[x].h.removed
    ensures Members(Update(r, x, t))
  {}

  lemma LocksUpdate(r: Room, x: SessionId, t: Session)
    requires Locks(r) && Phases(r) && x in r.sessions && PhaseOk(t)
    requires HoldsLock(t.phase) == HoldsLock(r.sessions[x].phase)
    ensures Locks(Update(r, x, t)) && Phases(Update(r, x, t))
  {}

  lemma SendsUpdate(r: Room, x: SessionId, t: Session)
    requires Sends(r) && x in r.sessions
    requires t.user == r.sessions[x].user && t.h.removed == r.sessions[x].h.removed
    requires t.closed == r.sessions[x].closed && t.h.gone == r.sessions[x].h.gone
    ensures Sends(Update(r, x, t))
  {}

  lemma RemovalsUpdate(r: Room, x: SessionId, t: Session)
    requires Removals(r) && x in r.sessions
    requires t.user == r.sessions[x].user && t.h.removed == r.sessions[x].h.removed
    requires t.h.queuedAt == r.sessions[x].h.queuedAt
    requires t.h.queuedAt.Some? ==> t.h.said == r.sessions[x].h.said
    ensures Removals(Update(r, x, t))
  {}

  /** Session s has become t without any change the invariants look at. */
  ghost predicate Quiet(s: Session, t: Session) {
    && t.user == s.user && t.closed == s.closed
    && t.h.gone == s.h.gone && t.h.removed == s.h.removed && t.h.queuedAt == s.h.queuedAt
    && (t.h.queuedAt.Some? ==> t.h.said == s.h.said)
    && HoldsLock(t.phase) == HoldsLock(s.phase)
    && PhaseOk(t)
  }

  /** As Quiet, for a change that does not move the handler either. */
  ghost predicate Calm(s: Session, t: Session) {
    && t.user == s.user && t.closed == s.closed && t.phase == s.phase
    && t.h.gone == s.h.gone && t.h.removed == s.h.removed && t.h.queuedAt == s.h.queuedAt
    && t.h.said == s.h.said
  }

  lemma QuietSafe(r: Room, x: SessionId, t: Session)
    requires Safe(r) && x in r.sessions && Quiet(r.sessions[x], t)
    ensures Safe(Update(r, x, t))
  {
    MembersUpdate(r, x, t);
    LocksUpdate(r, x, t);
    SendsUpdate(r, x, t);
    RemovalsUpdate(r, x, t);
  }

  /** Only counters, fanned and the cancellation flag differ. */
  ghost predicate SameCore(r: Room, t: Room) {
    && t == r.(cancelled := t.cancelled, droppedBroadcast := t.droppedBroadcast,
               droppedSend := t.droppedSend, h := t.h)
    && t.h.enqueued == r.h.enqueued && t.h.received == r.h.received && t.h.sentOnClosed == r.h.sentOnClosed
  }

  lemma SameCoreSafe(r: Room, t: Room)
    requires Safe(r) && SameCore(r, t)
    ensures Safe(t)
  {}

  lemma QueueEnqueue(r: Room, e: RoomEvent)
    requires Queue(r) && !Full(r)
    ensures Queue(Enqueue(r, e))
  {}

  lemma EnqueueFanRemovals(r: Room, e: RoomEvent)
    requires Removals(r) && !Removal(e)
    ensures Removals(Enqueue(r, e))
  {}

  lemma EnqueueFanSafe(r: Room, e: RoomEvent)
    requires Safe(r) && !Full(r) && !Removal(e)
    ensures Safe(Enqueue(r, e))
  {
    QueueEnqueue(r, e);
    EnqueueFanRemovals(r, e);
  }

  // -------------------------------------------------- entering and scheduling

  lemma EnterMembers(r: Room, x: SessionId, join: Message)
    requires Members(r) && x !in r.sessions && join.userId !in r.users
    ensures Members(AfterEnter(r, x, join))
  {}

  lemma EnterLocks(r: Room, x: SessionId, join: Message)
    requires Locks(r) && Phases(r) && LockFree(r) && x !in r.sessions && join.userId !in r.users
    ensures Locks(AfterEnter(r, x, join)) && Phases(AfterEnter(r, x, join))
  {}

  lemma EnterRest(r: Room, x: SessionId, join: Message)
    requires Sends(r) && Queue(r) && Removals(r) && LockFree(r) && x !in r.sessions && join.userId !in r.users
    ensures Sends(AfterEnter(r, x, join)) && Queue(AfterEnter(r, x, join)) && Removals(AfterEnter(r, x, join))
  {}

  lemma EnterSafe(r: Room, x: SessionId, join: Message)
    requires Safe(r) && LockFree(r) && x !in r.sessions && join.userId !in r.users
    ensures Safe(AfterEnter(r, x, join))
  {
    EnterMembers(r, x, join);
    EnterLocks(r, x, join);
    EnterRest(r, x, join);
  }

  lemma ReleaseLocks(r: Room, x: SessionId, p: Phase)
    requires Locks(r) && Phases(r) && x in r.sessions && HoldsLock(r.sessions[x].phase)
    requires p == if r.sessions[x].phase.Indexing? then Greeting else Awaiting
    ensures Locks(SetPhase(r, x, p).(holder := None)) && Phases(SetPhase(r, x, p).(holder := None))
  {
    assert PhaseOk(r.sessions[x]);
  }

  lemma PhaseChangeRest(r: Room, x: SessionId, p: Phase)
    requires Members(r) && Sends(r) && Removals(r) && x in r.sessions
    ensures Members(SetPhase(r, x, p)) && Sends(SetPhase(r, x, p)) && Removals(SetPhase(r, x, p))
  {
    var t := r.sessions[x].(phase := p);
    MembersUpdate(r, x, t);
    SendsUpdate(r, x, t);
    RemovalsUpdate(r, x, t);
  }

  /** The handler that holds Room.Mu releases it. */
  lemma ReleaseSafe(r: Room, x: SessionId, p: Phase)
    requires Safe(r) && x in r.sessions && HoldsLock(r.sessions[x].phase)
    requires p == if r.sessions[x].phase.Indexing? then Greeting else Awaiting
    ensures Safe(SetPhase(r, x, p).(holder := None))
  {
    ReleaseLocks(r, x, p);
    PhaseChangeRest(r, x, p);
    HeldSafe(SetPhase(r, x, p), SetPhase(r, x, p).(holder := None), None);
  }

  lemma ScheduleRemovals(r: Room, x: SessionId)
    requires Queue(r) && Removals(r) && At(r, x, Scheduling) && !Full(r) && PhaseOk(r.sessions[x])
    ensures Removals(AfterSchedule(r, x))
  {}

  lemma ScheduleSafe(r: Room, x: SessionId)
    requires Safe(r) && At(r, x, Scheduling) && !Full(r)
    ensures Safe(AfterSchedule(r, x))
  {
    var s := r.sessions[x];
    var t := s.(phase := Awaiting, h := s.h.(queuedAt := Some(|r.h.enqueued|)));
    MembersUpdate(r, x, t);
    LocksUpdate(r, x, t);
    SendsUpdate(r, x, t);
    QueueEnqueue(r, RemovalEvent(r, x));
    ScheduleRemovals(r, x);
  }

  lemma ReceiveSafe(r: Room)
    requires Safe(r) && r.loop.Selecting? && r.broadcast != []
    ensures Safe(AfterReceive(r))
  {}

  // ----------------------------------------------------------------- removing

  lemma EvictMembers(r: Room, u: UserId)
    requires Members(r) && u in r.users
    ensures Members(Evict(r, u))
  {}

  lemma EvictSends(r: Room, u: UserId)
    requires Members(r) && Sends(r) && u in r.users && LockFree(r)
    ensures Sends(Evict(r, u))
  {}

  /** The event in the goroutine's hand is the removal of exactly the session
      that is in Users under that id. */
  lemma HeldRemovalFindsItsSession(r: Room)
    requires Safe(r) && r.loop.Holding? && Removal(r.loop.event)
    ensures var u := r.loop.event.removeUserId;
            u in r.users && r.users[u] == r.loop.event.item.tag.session
            && r.sessions[r.users[u]].h.queuedAt == Some(r.h.received - 1)
  {}

  lemma ProcessRemovalRemovals(r: Room, u: UserId)
    requires Removals(r) && Queue(r) && r.loop.Holding? && u in r.users && r.users[u] in r.sessions
    requires Removal(r.loop.event)
    requires r.sessions[r.users[u]].h.queuedAt == Some(r.h.received - 1)
    ensures Removals(Evict(r, u).(loop := Unlisting(u)))
  {}

  lemma ProcessRemovalLocks(r: Room, u: UserId)
    requires Locks(r) && Phases(r) && Removals(r) && LockFree(r) && u in r.users && r.users[u] in r.sessions
    requires r.sessions[r.users[u]].h.queuedAt.Some?
    ensures Locks(Evict(r, u).(loop := Unlisting(u))) && Phases(Evict(r, u).(loop := Unlisting(u)))
  {}

  lemma ProcessRemovalSafe(r: Room)
    requires Safe(r) && r.loop.Holding? && Removal(r.loop.event) && LockFree(r)
    ensures Safe(AfterProcess(r))
  {
    var u := r.loop.event.removeUserId;
    HeldRemovalFindsItsSession(r);
    EvictMembers(r, u);
    EvictSends(r, u);
    ProcessRemovalRemovals(r, u);
    ProcessRemovalLocks(r, u);
  }

  lemma ProcessFanSafe(r: Room)
    requires Safe(r) && r.loop.Holding? && !Removal(r.loop.event) && ReadLockFree(r)
    ensures Safe(AfterProcess(r))
  {
    ProcessFanRemovals(r);
    ProcessFanSends(r);
  }

  lemma ProcessFanRemovals(r: Room)
    requires Removals(r) && Queue(r) && r.loop.Holding? && !Removal(r.loop.event)
    ensures Removals(AfterProcess(r)) && Queue(AfterProcess(r))
  {}

  lemma ProcessFanSends(r: Room)
    requires Members(r) && Locks(r) && Phases(r) && Sends(r) && r.loop.Holding? && !Removal(r.loop.event)
    requires ReadLockFree(r)
    ensures var t := AfterProcess(r); Members(t) && Locks(t) && Phases(t) && Sends(t)
  {}

  /** The fallback of scheduleRemoveUser, too, finds its own session. */
  lemma FallbackFindsItsSession(r: Room, x: SessionId)
    requires Safe(r) && At(r, x, FallingBack)
    ensures var u := r.sessions[x].user; u in r.users && r.users[u] == x
  {
    assert PhaseOk(r.sessions[x]);
  }

  lemma RemoveDirectLocks(r: Room, x: SessionId, u: UserId)
    requires Locks(r) && Phases(r) && LockFree(r) && u in r.users && r.users[u] == x && At(r, x, FallingBack)
    ensures Locks(SetPhase(Evict(r, u), x, Unindexing).(holder := Some(x)))
    ensures Phases(SetPhase(Evict(r, u), x, Unindexing).(holder := Some(x)))
  {
    assert PhaseOk(r.sessions[x]);
  }

  lemma EvictUnqueuedRemovals(r: Room, u: UserId)
    requires Removals(r) && Queue(r) && u in r.users && r.users[u] in r.sessions
    requires r.sessions[r.users[u]].h.queuedAt.None?
    ensures Removals(Evict(r, u))
  {}

  lemma RemoveDirectRest(r: Room, x: SessionId, u: UserId)
    requires Safe(r) && LockFree(r) && At(r, x, FallingBack) && u in r.users && r.users[u] == x
    ensures var t := SetPhase(Evict(r, u), x, Unindexing); Members(t) && Sends(t) && Removals(t)
  {
    assert PhaseOk(r.sessions[x]);
    EvictMembers(r, u);
    EvictSends(r, u);
    EvictUnqueuedRemovals(r, u);
    var e := Evict(r, u);
    var t := e.sessions[x].(phase := Unindexing);
    MembersUpdate(e, x, t);
    SendsUpdate(e, x, t);
    RemovalsUpdate(e, x, t);
  }

  lemma RemoveDirectSafe(r: Room, x: SessionId)
    requires Safe(r) && LockFree(r) && At(r, x, FallingBack)
    ensures Safe(AfterRemoveDirect(r, x))
  {
    FallbackFindsItsSession(r, x);
    RemoveDirectRest(r, x, r.sessions[x].user);
    RemoveDirectLocks(r, x, r.sessions[x].user);
    HeldSafe(SetPhase(Evict(r, r.sessions[x].user), x, Unindexing), AfterRemoveDirect(r, x), Some(x));
  }

  /** The holder of Room.Mu matters to Locks alone. */
  lemma HeldSafe(r: Room, t: Room, holder: Option<SessionId>)
    requires Members(r) && Sends(r) && Removals(r) && Queue(r) && t == r.(holder := holder) && Locks(t) && Phases(t)
    ensures Safe(t)
  {}

  // ------------------------------------------------------------ fan-out, close

  lemma PendingMemberIsOpen(r: Room, u: UserId)
    requires Members(r) && Sends(r) && r.loop.Fanning? && u in r.loop.pending
    ensures u in r.users && r.users[u] in r.sessions && !r.sessions[r.users[u]].closed
  {}

  lemma FanOneShape(r: Room, u: UserId)
    requires r.loop.Fanning? && u in r.users && r.users[u] in r.sessions && !r.sessions[r.users[u]].closed
    ensures var x := r.users[u];
            var t := AfterFanOne(r, u);
            && x in t.sessions
            && Calm(r.sessions[x], t.sessions[x])
            && SameCore(Update(r.(loop := Fanning(r.loop.item, r.loop.pending - {u})), x, t.sessions[x]), t)
  {}

  lemma FanOneSafe(r: Room, u: UserId)
    requires Safe(r) && r.loop.Fanning? && u in r.loop.pending
    ensures Safe(AfterFanOne(r, u))
  {
    PendingMemberIsOpen(r, u);
    FanOneShape(r, u);
    var t := AfterFanOne(r, u);
    var q := r.(loop := Fanning(r.loop.item, r.loop.pending - {u}));
    ShrinkSafe(r, u);
    QuietSafe(q, r.users[u], t.sessions[r.users[u]]);
    SameCoreSafe(Update(q, r.users[u], t.sessions[r.users[u]]), t);
  }

  lemma ShrinkSafe(r: Room, u: UserId)
    requires Safe(r) && r.loop.Fanning?
    ensures Safe(r.(loop := Fanning(r.loop.item, r.loop.pending - {u})))
  {}

  lemma CloseOneSends(r: Room, u: UserId)
    requires Members(r) && Sends(r) && r.loop.Closing? && u in r.loop.leftOpen
    ensures Sends(AfterCloseOne(r, u))
  {}

  lemma CloseOneSafe(r: Room, u: UserId)
    requires Safe(r) && r.loop.Closing? && u in r.loop.leftOpen
    ensures Safe(AfterCloseOne(r, u))
  {
    ClosedUpdate(r, r.users[u], Close(r, r.sessions[r.users[u]]));
    CloseOneSends(r, u);
    CloseOneCore(r, u);
  }

  lemma ClosedUpdate(r: Room, x: SessionId, t: Session)
    requires Members(r) && Locks(r) && Phases(r) && Removals(r) && x in r.sessions && t == Close(r, r.sessions[x])
    ensures var q := Update(r, x, t); Members(q) && Locks(q) && Phases(q) && Removals(q)
  {
    assert PhaseOk(r.sessions[x]);
    MembersUpdate(r, x, t);
    LocksUpdate(r, x, t);
    RemovalsUpdate(r, x, t);
  }

  /** The closing loop's place matters to Sends alone. */
  lemma CloseOneCore(r: Room, u: UserId)
    requires r.loop.Closing? && u in r.users && r.users[u] in r.sessions && Queue(r)
    requires var q := Update(r, r.users[u], Close(r, r.sessions[r.users[u]]));
      Members(q) && Locks(q) && Phases(q) && Removals(q)
    ensures var t := AfterCloseOne(r, u); Members(t) && Locks(t) && Phases(t) && Removals(t) && Queue(t)
  {}

  lemma LoopMovesSafe(r: Room, l: Loop)
    requires Safe(r)
    requires
      || (r.loop.Fanning? && r.loop.pending == {} && l == Selecting)
      || (r.loop.Unlisting? && l == Selecting)
      || (r.loop.Selecting? && LockFree(r) && l == Closing(r.users.Keys))
      || (r.loop.Closing? && r.loop.leftOpen == {} && l == Exited)
    ensures Safe(r.(loop := l))
  {}

  lemma SaySafe(r: Room, x: SessionId, m: Message, leaving: bool, created: string, stamped: string)
    requires Safe(r) && x in r.sessions && (r.sessions[x].phase.Greeting? || r.sessions[x].phase.Reading?)
    ensures Safe(Say(r, x, m, leaving, created, stamped))
  {
    var t := Say(r, x, m, leaving, created, stamped);
    var r' := Update(r, x, t.sessions[x]);
    assert PhaseOk(r.sessions[x]);
    QuietSafe(r, x, t.sessions[x]);
    if Full(r) {
      SameCoreSafe(r', t);
    } else {
      var e := t.broadcast[|r.broadcast|];
      EnqueueFanSafe(r', e);
      SameCoreSafe(Enqueue(r', e), t);
    }
  }

  // --------------------------------------------------------------- every run

  lemma HandlerSafe(r: Room, a: Action)
    requires Safe(r) && Enabled(r, a)
    requires a.Enter? || a.Indexed? || a.Greet? || a.Hear? || a.Handoff? || a.Depart?
    ensures Safe(Next(r, a))
  {
    match a
    case Enter(x, join) => if join.userId !in r.users { EnterSafe(r, x, join); }
    case Indexed(x) => ReleaseSafe(r, x, Greeting);
    case Greet(x, created, stamped) => SaySafe(r, x, r.sessions[x].join, false, created, stamped);
    case Hear(x, input, created, stamped) => HearSafe(r, x, input, created, stamped);
    case Handoff(x) =>
      assert PhaseOk(r.sessions[x]);
      QuietSafe(r, x, r.sessions[x].(phase := if r.sessions[x].phase.leaving then Scheduling else Reading));
    case Depart(x) =>
      assert PhaseOk(r.sessions[x]);
      QuietSafe(r, x, r.sessions[x].(phase := Departed));
  }

  lemma CountTextSafe(r: Room, x: SessionId)
    requires Safe(r) && x in r.sessions
    ensures Safe(CountText(r, x))
  {
    assert PhaseOk(r.sessions[x]);
    QuietSafe(r, x, CountText(r, x).sessions[x]);
  }

  lemma HearSafe(r: Room, x: SessionId, input: Input, created: string, stamped: string)
    requires Safe(r) && At(r, x, Reading)
    ensures Safe(AfterHear(r, x, input, created, stamped))
  {
    match Reaction(r.sessions[x], input)
    case None =>
    case Some((m, leaving)) =>
      if leaving {
        SaySafe(r, x, m, leaving, created, stamped);
      } else {
        CountTextSafe(r, x);
        SaySafe(CountText(r, x), x, m, leaving, created, stamped);
      }
  }

  lemma LeaverSafe(r: Room, a: Action)
    requires Safe(r) && Enabled(r, a)
    requires a.Schedule? || a.RemoveDirect? || a.Unindexed? || a.Remote? || a.Cancel?
    ensures Safe(Next(r, a))
  {
    if a.Schedule? {
      SchedulingSafe(r, a.x);
    } else if a.RemoveDirect? {
      RemoveDirectSafe(r, a.x);
    } else if a.Unindexed? {
      ReleaseSafe(r, a.x, Awaiting);
    } else if a.Remote? && !Full(r) {
      EnqueueFanSafe(r, RoomEvent(a.item, ""));
    } else {
      SameCoreSafe(r, Next(r, a));
    }
  }

  lemma SchedulingSafe(r: Room, x: SessionId)
    requires Safe(r) && At(r, x, Scheduling)
    ensures Safe(AfterSchedule(r, x))
  {
    if Full(r) {
      assert PhaseOk(r.sessions[x]);
      QuietSafe(r, x, r.sessions[x].(phase := FallingBack));
      SameCoreSafe(SetPhase(r, x, FallingBack), AfterSchedule(r, x));
    } else {
      ScheduleSafe(r, x);
    }
  }

  lemma LoopSafe(r: Room, a: Action)
    requires Safe(r) && Enabled(r, a) && OfLoop(a)
    ensures Safe(Next(r, a))
  {
    if a.Receive? {
      ReceiveSafe(r);
    } else if a.Process? {
      if Removal(r.loop.event) { ProcessRemovalSafe(r); } else { ProcessFanSafe(r); }
    } else if a.FanOne? {
      FanOneSafe(r, a.u);
    } else if a.CloseOne? {
      CloseOneSafe(r, a.u);
    } else {
      LoopMovesSafe(r, if a.SeeCancel? then Closing(r.users.Keys) else if a.EndClose? then Exited else Selecting);
    }
  }

  lemma WriterSafe(r: Room, a: Action)
    requires Safe(r) && Enabled(r, a) && OfWriter(a)
    ensures Safe(Next(r, a))
  {
    WriterShape(r, a);
    assert PhaseOk(r.sessions[a.x]);
    QuietSafe(r, a.x, Next(r, a).sessions[a.x]);
  }

  lemma SafeKept(r: Room, a: Action)
    requires Safe(r) && Enabled(r, a)
    ensures Safe(Next(r, a))
  {
    if a.Enter? || a.Indexed? || a.Greet? || a.Hear? || a.Handoff? || a.Depart? {
      HandlerSafe(r, a);
    } else if a.Schedule? || a.RemoveDirect? || a.Unindexed? || a.Remote? || a.Cancel? {
      LeaverSafe(r, a);
    } else if OfWriter(a) {
      WriterSafe(r, a);
    } else {
      LoopSafe(r, a);
    }
  }

  lemma {:induction false} SafeAlways(r: Room, acts: seq<Action>, t: Room)
    requires Safe(r) && Run(r, acts, t)
    ensures Safe(t)
    decreases |acts|
  {
    if acts != [] {
      SafeKept(r, acts[0]);
      SafeAlways(Next(r, acts[0]), acts[1..], t);
    }
  }

  lemma SafeFromStart(server: ServerId, id: RoomId, cap: nat, acts: seq<Action>, r: Room)
    requires Run(NewRoom(server, id, cap), acts, r)
    ensures Safe(r)
  {
    SafeAlways(NewRoom(server, id, cap), acts, r);
  }

  // ----------------------------------------------------------- main results

  /** Every removal still to be carried out names a present user, was scheduled
      by the very session in Users under that id, and is the only one for it. */
  lemma QueuedRemovalIsSessionSafe(server: ServerId, id: RoomId, cap: nat, acts: seq<Action>, r: Room)
    requires Run(NewRoom(server, id, cap), acts, r)
    ensures 0 <= Done(r) <= |r.h.enqueued|
    ensures forall k :: Done(r) <= k < |r.h.enqueued| && Removal(r.h.enqueued[k]) ==>
              var e := r.h.enqueued[k];
              e.removeUserId in r.users && r.users[e.removeUserId] == e.item.tag.session
    ensures forall j, k :: Done(r) <= j < k < |r.h.enqueued| && Removal(r.h.enqueued[j]) && Removal(r.h.enqueued[k]) ==>
              r.h.enqueued[j].removeUserId != r.h.enqueued[k].removeUserId
  {
    SafeFromStart(server, id, cap, acts, r);
  }

  /** The goroutine carrying out a removal always finds a member, and that
      member is the session that scheduled it: a stale removal never evicts a
      session that joined later under the same id. */
  lemma RemovalEvictsItsScheduler(server: ServerId, id: RoomId, cap: nat, acts: seq<Action>, r: Room)
    requires Run(NewRoom(server, id, cap), acts, r)
    requires Enabled(r, Process) && Removal(r.loop.event)
    ensures var x := r.loop.event.item.tag.session;
            && x in r.sessions && !r.sessions[x].h.removed && !r.sessions[x].closed
            && Next(r, Process).sessions[x].h.removed && Next(r, Process).sessions[x].closed
            && Next(r, Process).users == r.users - {r.loop.event.removeUserId}
            && forall y :: y in r.sessions && y != x ==> Next(r, Process).sessions[y] == r.sessions[y]
  {
    SafeFromStart(server, id, cap, acts, r);
    HeldRemovalFindsItsSession(r);
  }

  /** The same for the fallback that removes directly. */
  lemma FallbackEvictsItsScheduler(server: ServerId, id: RoomId, cap: nat, acts: seq<Action>, r: Room, x: SessionId)
    requires Run(NewRoom(server, id, cap), acts, r)
    requires Enabled(r, RemoveDirect(x))
    ensures !r.sessions[x].h.removed && r.sessions[x].user in r.users
    ensures var t := Next(r, RemoveDirect(x));
            && t.sessions[x].h.removed && t.sessions[x].closed && t.users == r.users - {r.sessions[x].user}
            && forall y :: y in r.sessions && y != x ==> t.sessions[y] == r.sessions[y]
  {
    SafeFromStart(server, id, cap, acts, r);
    FallbackFindsItsSession(r, x);
  }

  /** No run sends on a closed Send. While the goroutine lives every member's
      Send is open, so each close it or a fallback performs is the first. */
  lemma NoSendOnClosed(server: ServerId, id: RoomId, cap: nat, acts: seq<Action>, r: Room)
    requires Run(NewRoom(server, id, cap), acts, r)
    ensures !r.h.sentOnClosed
    ensures forall u :: u in r.users ==> r.users[u] in r.sessions
    ensures forall u :: u in r.users && Alive(r) ==> !r.sessions[r.users[u]].closed
    ensures forall u :: u in r.users && r.loop.Closing? && u in r.loop.leftOpen ==> !r.sessions[r.users[u]].closed
    ensures forall x :: x in r.sessions && r.sessions[x].closed && Alive(r) ==> r.sessions[x].h.removed
  {
    SafeFromStart(server, id, cap, acts, r);
  }
}
