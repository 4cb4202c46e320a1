/** One chat room of one server as a transition system: the handler and the
    writer of every connection, the room's broadcast goroutine, its bounded
    Broadcast queue, its Users map and every client's bounded Send queue.

    A run is any sequence of enabled actions, so every interleaving of the
    goroutines is a run. A critical section is one action when no other
    goroutine can observe its middle; the fan-out loop, the closing loop and
    the two sections that nest the UserRooms update are split. */
module RoomProtocol {
  import opened Basics
  import opened Models

  // ------------------------------------------------------------------ state

  /** Identity of the serial-th thing a session says (the message's uuid). */
  datatype Tag = Tag(server: ServerId, room: RoomId, session: SessionId, serial: nat)

  /** A *Response on its way to clients; None is Go's nil pointer. */
  datatype Item = Item(tag: Tag, resp: Option<Response>)

  /** roomEvent: the goroutine treats it as a removal iff removeUserId is not
      the empty string. */
  datatype RoomEvent = RoomEvent(item: Item, removeUserId: UserId)

  datatype QueueMessage = QueueMessage(
    id: Tag,
    roomId: RoomId,
    username: string,
    message: Message,
    timestamp: string,
    messageType: string,
    serverId: ServerId)

  /** Where a connection's handler stands in ChatRoomHandler. */
  datatype Phase =
    | Indexing                                      // in Users, holds Room.Mu, UserRooms not yet updated
    | Greeting                                      // about to broadcast its JOIN
    | Publishing(outgoing: QueueMessage, leaving: bool) // inside Rabbit.Publish
    | Reading                                       // in the read loop
    | Scheduling                                    // about to queue its own removal
    | FallingBack                                   // Broadcast was full: about to remove directly
    | Unindexing                                    // out of Users, holds Room.Mu, UserRooms not yet updated
    | Awaiting                                      // blocked on writeDone
    | Departed

  datatype Writer = Waiting | Writing(item: Item) | Drained | Failed | Stopped

  /** What was offered to a client by the fan-out, and whether Send had room. */
  datatype Offer = Offer(item: Item, accepted: bool)

  /** History of a session: no step reads it. */
  datatype SessionHistory = SessionHistory(
    joinedAt: nat,          // fan-outs begun before it entered Users
    enqueuedAtJoin: nat,    // events ever enqueued before it entered Users
    gone: Option<nat>,      // fan-outs begun when its Send was closed
    removed: bool,          // it has been deleted from Users
    offered: seq<Offer>,
    taken: seq<Item>,       // received from Send by the writer
    written: seq<Item>,     // written to the connection
    said: seq<Response>,    // everything it handed to broadcastAndPublish
    texts: nat,             // TEXT messages read
    queuedAt: Option<nat>)  // position of its removal event among all events enqueued

  datatype Session = Session(
    user: UserId,
    join: Message,
    phase: Phase,
    send: seq<Item>,
    closed: bool,
    writer: Writer,
    h: SessionHistory)

  /** Where the broadcast goroutine stands. */
  datatype Loop =
    | Selecting
    | Holding(event: RoomEvent)                     // received, no lock yet
    | Fanning(item: Item, pending: set<UserId>)     // holds Room.Mu for reading
    | Unlisting(user: UserId)                       // member deleted, UserRooms not yet updated
    | Closing(leftOpen: set<UserId>)                // shutting down, holds Room.Mu
    | Exited

  datatype RoomHistory = RoomHistory(
    enqueued: seq<RoomEvent>,
    received: nat,          // events the goroutine has taken from Broadcast
    fanned: seq<Item>,      // fan-outs begun
    localTries: nat,        // pushes attempted by broadcastAndPublish
    localPushes: nat,       // of these, the successful ones
    lostRemote: nat,        // remote responses lost to a full Broadcast
    fallbacks: nat,         // direct removals chosen because Broadcast was full
    puts: nat,              // successful puts into some Send
    audience: nat,          // sum of |Users| over fan-outs begun
    sentOnClosed: bool)     // a put was attempted on a closed Send (a panic in Go)

  datatype Room = Room(
    server: ServerId,
    id: RoomId,
    cap: nat,
    users: map<UserId, SessionId>,
    sessions: map<SessionId, Session>,
    holder: Option<SessionId>,  // handler holding Room.Mu across two actions
    broadcast: seq<RoomEvent>,
    loop: Loop,
    cancelled: bool,
    droppedBroadcast: nat,
    droppedSend: nat,
    h: RoomHistory)

  function NewRoom(server: ServerId, id: RoomId, cap: nat): Room {
    Room(server, id, cap, map[], map[], None, [], Selecting, false, 0, 0,
         RoomHistory([], 0, [], 0, 0, 0, 0, 0, 0, false))
  }

  datatype Input = Read(message: Message) | ReadError

  datatype Action =
    | Enter(x: SessionId, join: Message)
    | Indexed(x: SessionId)
    | Greet(x: SessionId, created: string, stamped: string)
    | Hear(x: SessionId, input: Input, created: string, stamped: string)
    | Handoff(x: SessionId)
    | Schedule(x: SessionId)
    | RemoveDirect(x: SessionId)
    | Unindexed(x: SessionId)
    | Remote(item: Item)
    | Receive
    | Process
    | FanOne(u: UserId)
    | EndFan
    | Unlist
    | Cancel
    | SeeCancel
    | CloseOne(u: UserId)
    | EndClose
    | WriterTake(x: SessionId)
    | WriterWrote(x: SessionId)
    | WriterFail(x: SessionId)
    | WriterDrained(x: SessionId)
    | WriterStop(x: SessionId)
    | Depart(x: SessionId)

  // -------------------------------------------------------------- vocabulary

  predicate Removal(e: RoomEvent) { e.removeUserId != "" }

  predicate HoldsLock(p: Phase) { p.Indexing? || p.Unindexing? }

  predicate WriterDone(w: Writer) { w.Drained? || w.Failed? || w.Stopped? }

  /** Nobody holds Room.Mu exclusively. */
  predicate ReadLockFree(r: Room) { r.holder.None? && !r.loop.Closing? }

  /** Nobody holds Room.Mu at all. */
  predicate LockFree(r: Room) { ReadLockFree(r) && !r.loop.Fanning? }

  predicate At(r: Room, x: SessionId, phase: Phase) { x in r.sessions && r.sessions[x].phase == phase }

  function Update(r: Room, x: SessionId, s: Session): Room { r.(sessions := r.sessions[x := s]) }

  function SetPhase(r: Room, x: SessionId, p: Phase): Room
    requires x in r.sessions
  {
    Update(r, x, r.sessions[x].(phase := p))
  }

  /** A non-blocking send of e on Broadcast that found room. */
  function Enqueue(r: Room, e: RoomEvent): Room {
    r.(broadcast := r.broadcast + [e], h := r.h.(enqueued := r.h.enqueued + [e]))
  }

  predicate Full(r: Room) { |r.broadcast| >= r.cap }

  /** The event that scheduleRemoveUser queues for session x. */
  function RemovalEvent(r: Room, x: SessionId): RoomEvent
    requires x in r.sessions
  {
    RoomEvent(Item(Tag(r.server, r.id, x, |r.sessions[x].h.said|), None), r.sessions[x].user)
  }

  /** closeOnce.Do(close(Send)). */
  function Close(r: Room, s: Session): Session {
    if s.closed then s else s.(closed := true, h := s.h.(gone := Some(|r.h.fanned|)))
  }

  /** Close the member's Send and delete it from Users. */
  function Evict(r: Room, u: UserId): Room
    requires u in r.users && r.users[u] in r.sessions
  {
    var s := Close(r, r.sessions[r.users[u]]);
    Update(r, r.users[u], s.(h := s.h.(removed := true))).(users := r.users - {u})
  }

  /** The LEAVE a handler makes up when its connection is lost; the name is
      the one in the response to the JOIN. */
  function MadeUpLeave(s: Session): Message {
    NewMessage(s.user, NewResponse(s.join, "").message.username, "", LEAVE)
  }

  /** What the read loop does with an input: None when the message is ignored,
      otherwise the message to broadcast and whether the user is leaving. */
  function Reaction(s: Session, input: Input): Option<(Message, bool)> {
    match input
    case ReadError => Some((MadeUpLeave(s), true))
    case Read(m) =>
      if m.messageType == TEXT then Some((m, false))
      else if m.messageType == LEAVE then Some((m, true))
      else None
  }

  function ToQueue(tag: Tag, resp: Response, stamped: string): QueueMessage {
    QueueMessage(tag, tag.room, resp.message.username, resp.message, stamped, resp.message.messageType, tag.server)
  }

  /** broadcastAndPublish up to the call of Rabbit.Publish. */
  function Say(r: Room, x: SessionId, m: Message, leaving: bool, created: string, stamped: string): Room
    requires x in r.sessions
  {
    var s := r.sessions[x];
    var resp := NewResponse(m, created);
    var tag := Tag(r.server, r.id, x, |s.h.said|);
    var s' := s.(phase := Publishing(ToQueue(tag, resp, stamped), leaving),
                 h := s.h.(said := s.h.said + [resp]));
    var r' := Update(r, x, s');
    if Full(r) then
      r'.(droppedBroadcast := r.droppedBroadcast + 1, h := r'.h.(localTries := r.h.localTries + 1))
    else
      var q := Enqueue(r', RoomEvent(Item(tag, Some(resp)), ""));
      q.(h := q.h.(localTries := r.h.localTries + 1, localPushes := r.h.localPushes + 1))
  }

  // ----------------------------------------------------------------- actions

  predicate Enabled(r: Room, a: Action) {
    match a
    case Enter(x, _) => LockFree(r) && x !in r.sessions
    case Indexed(x) => At(r, x, Indexing)
    case Greet(x, _, _) => At(r, x, Greeting)
    case Hear(x, _, _, _) => At(r, x, Reading)
    case Handoff(x) => x in r.sessions && r.sessions[x].phase.Publishing?
    case Schedule(x) => At(r, x, Scheduling)
    case RemoveDirect(x) => LockFree(r) && At(r, x, FallingBack)
    case Unindexed(x) => At(r, x, Unindexing)
    case Remote(item) => true
    case Receive => r.loop.Selecting? && r.broadcast != []
    case Process => r.loop.Holding? && if Removal(r.loop.event) then LockFree(r) else ReadLockFree(r)
    case FanOne(u) => r.loop.Fanning? && u in r.loop.pending
    case EndFan => r.loop.Fanning? && r.loop.pending == {}
    case Unlist => r.loop.Unlisting?
    case Cancel => true
    case SeeCancel => r.loop.Selecting? && r.cancelled && LockFree(r)
    case CloseOne(u) => r.loop.Closing? && u in r.loop.leftOpen
    case EndClose => r.loop.Closing? && r.loop.leftOpen == {}
    case WriterTake(x) =>
      && x in r.sessions && !r.sessions[x].phase.Indexing?
      && r.sessions[x].writer.Waiting? && r.sessions[x].send != []
    case WriterWrote(x) => x in r.sessions && r.sessions[x].writer.Writing?
    case WriterFail(x) => x in r.sessions && r.sessions[x].writer.Writing?
    case WriterDrained(x) =>
      && x in r.sessions && !r.sessions[x].phase.Indexing?
      && r.sessions[x].writer.Waiting? && r.sessions[x].closed && r.sessions[x].send == []
    case WriterStop(x) =>
      && x in r.sessions && !r.sessions[x].phase.Indexing?
      && r.sessions[x].writer.Waiting? && r.cancelled
    case Depart(x) => At(r, x, Awaiting) && WriterDone(r.sessions[x].writer)
  }

  function AfterEnter(r: Room, x: SessionId, join: Message): Room {
    if join.userId in r.users then r
    else
      var h := SessionHistory(|r.h.fanned|, |r.h.enqueued|, None, false, [], [], [], [], 0, None);
      Update(r, x, Session(join.userId, join, Indexing, [], false, Waiting, h))
      .(users := r.users[join.userId := x], holder := Some(x))
  }

  function CountText(r: Room, x: SessionId): Room
    requires x in r.sessions
  {
    var s := r.sessions[x];
    Update(r, x, s.(h := s.h.(texts := s.h.texts + 1)))
  }

  function AfterHear(r: Room, x: SessionId, input: Input, created: string, stamped: string): Room
    requires x in r.sessions
  {
    match Reaction(r.sessions[x], input)
    case None => r
    case Some((m, leaving)) =>
      Say(if leaving then r else CountText(r, x), x, m, leaving, created, stamped)
  }

  function AfterSchedule(r: Room, x: SessionId): Room
    requires x in r.sessions
  {
    var s := r.sessions[x];
    if Full(r) then SetPhase(r, x, FallingBack).(h := r.h.(fallbacks := r.h.fallbacks + 1))
    else
      Enqueue(Update(r, x, s.(phase := Awaiting, h := s.h.(queuedAt := Some(|r.h.enqueued|)))), RemovalEvent(r, x))
  }

  function AfterRemoveDirect(r: Room, x: SessionId): Room
    requires x in r.sessions
  {
    var u := r.sessions[x].user;
    if u in r.users && r.users[u] in r.sessions then
      SetPhase(Evict(r, u), x, Unindexing).(holder := Some(x))
    else SetPhase(r, x, Awaiting)
  }

  function AfterRemote(r: Room, item: Item): Room {
    if Full(r) then r.(h := r.h.(lostRemote := r.h.lostRemote + 1))
    else Enqueue(r, RoomEvent(item, ""))
  }

  function AfterReceive(r: Room): Room
    requires r.broadcast != []
  {
    r.(broadcast := r.broadcast[1..], loop := Holding(r.broadcast[0]), h := r.h.(received := r.h.received + 1))
  }

  function AfterProcess(r: Room): Room
    requires r.loop.Holding?
  {
    var e := r.loop.event;
    if Removal(e) then
      var u := e.removeUserId;
      if u in r.users && r.users[u] in r.sessions then Evict(r, u).(loop := Unlisting(u))
      else r.(loop := Selecting)
    else
      r.(loop := Fanning(e.item, r.users.Keys),
         h := r.h.(fanned := r.h.fanned + [e.item], audience := r.h.audience + |r.users|))
  }

  /** A non-blocking send of item on the session's Send. */
  function Offered(s: Session, item: Item, cap: nat): Session {
    var accepted := |s.send| < cap;
    s.(send := if accepted then s.send + [item] else s.send,
       h := s.h.(offered := s.h.offered + [Offer(item, accepted)]))
  }

  /** One turn of the fan-out loop. */
  function AfterFanOne(r: Room, u: UserId): Room
    requires r.loop.Fanning?
  {
    var r' := r.(loop := Fanning(r.loop.item, r.loop.pending - {u}));
    if u !in r.users || r.users[u] !in r.sessions then r'
    else
      var x := r.users[u];
      var s := r.sessions[x];
      if s.closed then r'.(h := r.h.(sentOnClosed := true))
      else if |s.send| < r.cap then
        Update(r', x, Offered(s, r.loop.item, r.cap)).(h := r.h.(puts := r.h.puts + 1))
      else
        Update(r', x, Offered(s, r.loop.item, r.cap)).(droppedSend := r.droppedSend + 1)
  }

  function AfterCloseOne(r: Room, u: UserId): Room
    requires r.loop.Closing?
  {
    var r' := r.(loop := Closing(r.loop.leftOpen - {u}));
    if u !in r.users || r.users[u] !in r.sessions then r'
    else Update(r', r.users[u], Close(r, r.sessions[r.users[u]]))
  }

  function Next(r: Room, a: Action): Room
    requires Enabled(r, a)
  {
    match a
    case Enter(x, join) => AfterEnter(r, x, join)
    case Indexed(x) => SetPhase(r, x, Greeting).(holder := None)
    case Greet(x, created, stamped) => Say(r, x, r.sessions[x].join, false, created, stamped)
    case Hear(x, input, created, stamped) => AfterHear(r, x, input, created, stamped)
    case Handoff(x) => SetPhase(r, x, if r.sessions[x].phase.leaving then Scheduling else Reading)
    case Schedule(x) => AfterSchedule(r, x)
    case RemoveDirect(x) => AfterRemoveDirect(r, x)
    case Unindexed(x) => SetPhase(r, x, Awaiting).(holder := None)
    case Remote(item) => AfterRemote(r, item)
    case Receive => AfterReceive(r)
    case Process => AfterProcess(r)
    case FanOne(u) => AfterFanOne(r, u)
    case EndFan => r.(loop := Selecting)
    case Unlist => r.(loop := Selecting)
    case Cancel => r.(cancelled := true)
    case SeeCancel => r.(loop := Closing(r.users.Keys))
    case CloseOne(u) => AfterCloseOne(r, u)
    case EndClose => r.(loop := Exited)
    case WriterTake(x) =>
      var s := r.sessions[x];
      Update(r, x, s.(send := s.send[1..], writer := Writing(s.send[0]), h := s.h.(taken := s.h.taken + [s.send[0]])))
    case WriterWrote(x) =>
      var s := r.sessions[x];
      Update(r, x, s.(writer := Waiting, h := s.h.(written := s.h.written + [s.writer.item])))
    case WriterFail(x) => Update(r, x, r.sessions[x].(writer := Failed))
    case WriterDrained(x) => Update(r, x, r.sessions[x].(writer := Drained))
    case WriterStop(x) => Update(r, x, r.sessions[x].(writer := Stopped))
    case Depart(x) => SetPhase(r, x, Departed)
  }

  /** t is reached from r by performing the actions of acts in order. */
  ghost predicate Run(r: Room, acts: seq<Action>, t: Room)
    decreases |acts|
  {
    if acts == [] then r == t
    else Enabled(r, acts[0]) && Run(Next(r, acts[0]), acts[1..], t)
  }

  /** Appending one enabled action to a run gives a run. */
  lemma {:induction false} RunSnoc(r: Room, acts: seq<Action>, s: Room, a: Action)
    requires Run(r, acts, s) && Enabled(s, a)
    ensures Run(r, acts + [a], Next(s, a))
    decreases |acts|
  {
    if acts == [] {
      assert acts + [a] == [a];
    } else {
      assert (acts + [a])[1..] == acts[1..] + [a];
      RunSnoc(Next(r, acts[0]), acts[1..], s, a);
    }
  }

  lemma {:induction false} RunConcat(r: Room, acts: seq<Action>, s: Room, more: seq<Action>, t: Room)
    requires Run(r, acts, s) && Run(s, more, t)
    ensures Run(r, acts + more, t)
    decreases |acts|
  {
    if acts == [] {
      assert acts + more == more;
    } else {
      assert (acts + more)[1..] == acts[1..] + more;
      RunConcat(Next(r, acts[0]), acts[1..], s, more, t);
    }
  }
}
