/** How large BufferSize must be: with at most U sessions in a room over the
    whole cluster, at most M texts each, and U * (M + 3) <= BufferSize, nothing
    is ever dropped in that room on any server. */
module Sizing {
  import opened Basics
  import opened Models
  import opened RoomProtocol
  import opened RoomSafety
  import opened RoomWindow
  import opened RoomEvolution
  import opened RoomTags
  import opened ChatServer
  import opened Pipeline
  import opened Cluster
  import opened Delivery

  // ------------------------------------------------------------------ counting

  type Speaker = (ServerId, SessionId)

  ghost function SessionsOf(c: Cluster, s: ServerId, room: RoomId): set<SessionId> {
    if s in c.servers && room in c.servers[s].rooms && c.servers[s].rooms[room] in c.servers[s].heap
    then c.servers[s].heap[c.servers[s].rooms[room]].sessions.Keys else {}
  }

  /** All sessions a room has seen, over the whole cluster. */
  ghost function Speakers(c: Cluster, room: RoomId): set<Speaker> {
    set s, x | s in c.servers && x in SessionsOf(c, s, room) :: (s, x)
  }

  ghost function TextsOf(c: Cluster, room: RoomId, p: Speaker): nat
    requires p in Speakers(c, room)
  {
    c.servers[p.0].heap[c.servers[p.0].rooms[room]].sessions[p.1].h.texts
  }

  /** At most u sessions so far, each with at most m texts so far. */
  ghost predicate Within(c: Cluster, room: RoomId, u: nat, m: nat) {
    |Speakers(c, room)| <= u && forall p :: p in Speakers(c, room) ==> TextsOf(c, room, p) <= m
  }

  ghost function TagsBelow(ps: set<Speaker>, room: RoomId, n: nat): set<Tag> {
    set p, k | p in ps && 0 <= k < n :: Tag(p.0, room, p.1, k)
  }

  lemma {:induction false} TagsOfOne(p: Speaker, room: RoomId, n: nat)
    ensures |TagsBelow({p}, room, n)| == n
  {
    if n == 0 {
      assert TagsBelow({p}, room, 0) == {};
    } else {
      assert TagsBelow({p}, room, n) == TagsBelow({p}, room, n - 1) + {Tag(p.0, room, p.1, n - 1)};
      TagsOfOne(p, room, n - 1);
    }
  }

  lemma {:induction false} TagsCount(ps: set<Speaker>, room: RoomId, n: nat)
    ensures |TagsBelow(ps, room, n)| == |ps| * n
  {
    if ps == {} {
      assert TagsBelow(ps, room, n) == {};
    } else {
      var p :| p in ps;
      TagsSplit(ps, p, room, n);
      TagsOfOne(p, room, n);
      TagsCount(ps - {p}, room, n);
      OneMore(|ps| - 1, n);
    }
  }

  lemma TagsSplit(ps: set<Speaker>, p: Speaker, room: RoomId, n: nat)
    requires p in ps
    ensures |TagsBelow(ps, room, n)| == |TagsBelow(ps - {p}, room, n)| + |TagsBelow({p}, room, n)|
  {
    assert TagsBelow(ps, room, n) == TagsBelow(ps - {p}, room, n) + TagsBelow({p}, room, n);
    assert TagsBelow(ps - {p}, room, n) !! TagsBelow({p}, room, n);
  }

  lemma OneMore(a: nat, n: nat)
    ensures (a + 1) * n == a * n + n
  {}

  lemma {:induction false} DistinctFit(es: seq<RoomEvent>, tags: set<Tag>)
    requires forall i, j :: 0 <= i < j < |es| ==> es[i].item.tag != es[j].item.tag
    requires forall i :: 0 <= i < |es| ==> es[i].item.tag in tags
    ensures |es| <= |tags|
  {
    if es != [] {
      var last := |es| - 1;
      DistinctFit(es[..last], tags - {es[last].item.tag});
    }
  }

  /** tag belongs to a session of the room that has said at least that much. */
  ghost predicate Known(c: Cluster, room: RoomId, tag: Tag) {
    && tag.room == room && (tag.server, tag.session) in Speakers(c, room)
    && tag.serial <= |c.servers[tag.server].heap[c.servers[tag.server].rooms[room]].sessions[tag.session].h.said|
  }

  lemma KnownFits(c: Cluster, room: RoomId, u: nat, m: nat, tag: Tag)
    requires AllTagged(c) && Within(c, room, u, m) && Known(c, room, tag)
    ensures tag in TagsBelow(Speakers(c, room), room, m + 3)
  {
    var p := (tag.server, tag.session);
    var r := c.servers[tag.server].heap[c.servers[tag.server].rooms[room]];
    assert Tagged(r) && Talk(r);
    assert TextsOf(c, room, p) <= m;
  }

  lemma OwnIsKnown(c: Cluster, s: ServerId, ref: RoomRef, k: nat)
    requires ClusterOk(c) && s in c.servers && ref in c.servers[s].heap
    requires k < |c.servers[s].heap[ref].h.enqueued| && c.servers[s].heap[ref].h.enqueued[k].item.tag.server == s
    ensures Known(c, c.servers[s].heap[ref].id, c.servers[s].heap[ref].h.enqueued[k].item.tag)
  {
    var r := c.servers[s].heap[ref];
    assert Tagged(r) && RoomsOk(c.servers[s]);
    assert r.server == s && c.servers[s].rooms[r.id] == ref;
    OwnTagBounded(r, k);
    assert (s, r.h.enqueued[k].item.tag.session) in Speakers(c, r.id);
  }

  lemma OwnTagBounded(r: Room, k: nat)
    requires Tags(r) && k < |r.h.enqueued| && r.h.enqueued[k].item.tag.server == r.server
    ensures var tag := r.h.enqueued[k].item.tag;
      tag.room == r.id && tag.session in r.sessions && tag.serial <= |r.sessions[tag.session].h.said|
  {
    assert OwnEvent(r, k);
  }

  lemma LoggedIsKnown(c: Cluster, room: RoomId, j: nat)
    requires ClusterOk(c) && j < |LogOf(c, room)|
    ensures Known(c, room, LogOf(c, room)[j].id)
  {
    LoggedServerId(c, room, j);
  }

  lemma EnqueuedIsKnown(c: Cluster, s: ServerId, ref: RoomRef, k: nat)
    requires ClusterOk(c) && s in c.servers && ref in c.servers[s].heap && k < |c.servers[s].heap[ref].h.enqueued|
    ensures Known(c, c.servers[s].heap[ref].id, c.servers[s].heap[ref].h.enqueued[k].item.tag)
  {
    var r := c.servers[s].heap[ref];
    if r.h.enqueued[k].item.tag.server == s {
      OwnIsKnown(c, s, ref, k);
    } else {
      assert RoomImports(c, s, r);
      assert FromLog(c, s, r.id, r.h.enqueued[k].item);
      var j :| 0 <= j < ReadOf(c, s, r.id) && j < |LogOf(c, r.id)| && LogOf(c, r.id)[j].id == r.h.enqueued[k].item.tag;
      LoggedIsKnown(c, r.id, j);
    }
  }

  /** Everything enqueued in a room is tagged within the room's budget. */
  lemma EnqueuedTagsFit(c: Cluster, s: ServerId, ref: RoomRef, u: nat, m: nat)
    requires ClusterOk(c) && s in c.servers && ref in c.servers[s].heap
    requires Within(c, c.servers[s].heap[ref].id, u, m)
    ensures var r := c.servers[s].heap[ref];
      && Tagged(r)
      && (forall k :: 0 <= k < |r.h.enqueued| ==> r.h.enqueued[k].item.tag in TagsBelow(Speakers(c, r.id), r.id, m + 3))
      && |TagsBelow(Speakers(c, r.id), r.id, m + 3)| <= u * (m + 3)
  {
    var r := c.servers[s].heap[ref];
    forall k | 0 <= k < |r.h.enqueued| ensures r.h.enqueued[k].item.tag in TagsBelow(Speakers(c, r.id), r.id, m + 3) {
      EnqueuedIsKnown(c, s, ref, k);
      KnownFits(c, r.id, u, m, r.h.enqueued[k].item.tag);
    }
    TagsCount(Speakers(c, r.id), r.id, m + 3);
    Scale(|Speakers(c, r.id)|, u, m + 3);
  }

  ghost predicate NewHere(r: Room, tag: Tag) {
    forall k :: 0 <= k < |r.h.enqueued| ==> r.h.enqueued[k].item.tag != tag
  }

  lemma OneMoreFits(r: Room, tags: set<Tag>, tag: Tag)
    requires Distinct(r) && NewHere(r, tag) && tag in tags
    requires forall k :: 0 <= k < |r.h.enqueued| ==> r.h.enqueued[k].item.tag in tags
    ensures |r.h.enqueued| + 1 <= |tags|
  {
    DistinctFit(r.h.enqueued, tags - {tag});
  }

  /** However many events have been enqueued, one more new one still fits. */
  lemma RoomForOneMore(c: Cluster, s: ServerId, ref: RoomRef, u: nat, m: nat, tag: Tag)
    requires ClusterOk(c) && s in c.servers && ref in c.servers[s].heap
    requires Within(c, c.servers[s].heap[ref].id, u, m) && Known(c, c.servers[s].heap[ref].id, tag)
    requires NewHere(c.servers[s].heap[ref], tag)
    ensures |c.servers[s].heap[ref].h.enqueued| + 1 <= u * (m + 3)
  {
    var r := c.servers[s].heap[ref];
    EnqueuedTagsFit(c, s, ref, u, m);
    KnownFits(c, r.id, u, m, tag);
    OneMoreFits(r, TagsBelow(Speakers(c, r.id), r.id, m + 3), tag);
  }

  lemma EnqueuedFits(c: Cluster, s: ServerId, ref: RoomRef, u: nat, m: nat)
    requires ClusterOk(c) && s in c.servers && ref in c.servers[s].heap
    requires Within(c, c.servers[s].heap[ref].id, u, m)
    ensures |c.servers[s].heap[ref].h.enqueued| <= u * (m + 3)
  {
    var r := c.servers[s].heap[ref];
    EnqueuedTagsFit(c, s, ref, u, m);
    DistinctFit(r.h.enqueued, TagsBelow(Speakers(c, r.id), r.id, m + 3));
  }

  lemma Scale(a: nat, b: nat, n: nat)
    requires a <= b
    ensures a * n <= b * n
  {}

  // ------------------------------------------------------------- nothing dropped

  predicate AllAccepted(s: Session) { forall i :: 0 <= i < |s.h.offered| ==> s.h.offered[i].accepted }

  /** Every counter of losses is 0 and every offer was accepted. */
  ghost predicate Lossless(r: Room) {
    && r.droppedBroadcast == 0 && r.droppedSend == 0 && r.h.lostRemote == 0 && r.h.fallbacks == 0
    && forall x :: x in r.sessions ==> AllAccepted(r.sessions[x])
  }

  ghost predicate SameLosses(r: Room, t: Room) {
    && t.droppedBroadcast == r.droppedBroadcast && t.droppedSend == r.droppedSend
    && t.h.lostRemote == r.h.lostRemote && t.h.fallbacks == r.h.fallbacks
    && forall x :: x in t.sessions ==>
         if x in r.sessions then t.sessions[x].h.offered == r.sessions[x].h.offered else t.sessions[x].h.offered == []
  }

  lemma SameLossesKeep(r: Room, t: Room)
    requires Lossless(r) && SameLosses(r, t)
    ensures Lossless(t)
  {}

  lemma SayLosses(r: Room, x: SessionId, m: Message, leaving: bool, created: string, stamped: string)
    requires x in r.sessions && !Full(r)
    ensures SameLosses(r, Say(r, x, m, leaving, created, stamped))
  {}

  lemma HearLosses(r: Room, x: SessionId, input: Input, created: string, stamped: string)
    requires x in r.sessions && (Reaction(r.sessions[x], input).Some? ==> !Full(r))
    ensures SameLosses(r, AfterHear(r, x, input, created, stamped))
  {
    match Reaction(r.sessions[x], input)
    case None =>
    case Some((m, leaving)) => SayLosses(if leaving then r else CountText(r, x), x, m, leaving, created, stamped);
  }

  lemma EvictLosses(r: Room, u: UserId)
    requires u in r.users && r.users[u] in r.sessions
    ensures SameLosses(r, Evict(r, u))
  {}

  lemma ProcessLosses(r: Room)
    requires r.loop.Holding?
    ensures SameLosses(r, AfterProcess(r))
  {
    var u := r.loop.event.removeUserId;
    if u in r.users && r.users[u] in r.sessions { EvictLosses(r, u); }
  }

  lemma RemoveDirectLosses(r: Room, x: SessionId)
    requires x in r.sessions
    ensures SameLosses(r, AfterRemoveDirect(r, x))
  {
    var u := r.sessions[x].user;
    if u in r.users && r.users[u] in r.sessions { EvictLosses(r, u); }
  }

  lemma CloseOneLosses(r: Room, u: UserId)
    requires r.loop.Closing?
    ensures SameLosses(r, AfterCloseOne(r, u))
  {}

  lemma WriterLosses(r: Room, a: Action)
    requires Enabled(r, a) && OfWriter(a)
    ensures SameLosses(r, Next(r, a))
  {}

  lemma MoveLosses(r: Room, a: Action)
    requires Enabled(r, a)
    requires a.Enter? || a.Indexed? || a.Unindexed? || a.Handoff? || a.Depart? || a.Cancel?
    ensures SameLosses(r, Next(r, a))
  {}

  lemma ScheduleLosses(r: Room, x: SessionId)
    requires x in r.sessions && !Full(r)
    ensures SameLosses(r, AfterSchedule(r, x))
  {}

  /** Steps that neither find Broadcast full nor offer to a client. */
  lemma StepLosses(r: Room, a: Action)
    requires Enabled(r, a) && !a.FanOne?
    requires Pushes(r, a) ==> !Full(r)
    ensures SameLosses(r, Next(r, a))
  {
    if a.Greet? {
      SayLosses(r, a.x, r.sessions[a.x].join, false, a.created, a.stamped);
    } else if a.Hear? {
      HearLosses(r, a.x, a.input, a.created, a.stamped);
    } else if a.Schedule? {
      ScheduleLosses(r, a.x);
    } else if a.Process? {
      ProcessLosses(r);
    } else if a.RemoveDirect? {
      RemoveDirectLosses(r, a.x);
    } else if a.CloseOne? {
      CloseOneLosses(r, a.u);
    } else if OfWriter(a) {
      WriterLosses(r, a);
    } else if !OfLoop(a) && !a.Remote? {
      MoveLosses(r, a);
    }
  }

  /** a tries to put something into Broadcast. */
  predicate Pushes(r: Room, a: Action) {
    a.Greet? || a.Schedule? || a.Remote?
    || (a.Hear? && a.x in r.sessions && Reaction(r.sessions[a.x], a.input).Some?)
  }

  lemma FanOneLosses(r: Room, u: UserId)
    requires Lossless(r) && r.loop.Fanning?
    requires u in r.users && r.users[u] in r.sessions ==> |r.sessions[r.users[u]].send| < r.cap
    ensures Lossless(AfterFanOne(r, u))
  {}

  // --------------------------------------------------- nothing full in a room

  lemma QueueRoom(r: Room, bound: nat)
    requires Queue(r) && |r.h.enqueued| + 1 <= bound <= r.cap
    ensures !Full(r)
  {}

  lemma NextOwnTagIsNew(r: Room, x: SessionId)
    requires Tags(r) && x in r.sessions && r.sessions[x].h.queuedAt.None?
    ensures NewHere(r, Tag(r.server, r.id, x, |r.sessions[x].h.said|))
  {
    forall k | 0 <= k < |r.h.enqueued|
      ensures r.h.enqueued[k].item.tag != Tag(r.server, r.id, x, |r.sessions[x].h.said|)
    {
      if r.h.enqueued[k].item.tag.server == r.server { assert OwnEvent(r, k); }
    }
  }

  lemma {:induction false} AcceptedLength(os: seq<Offer>)
    ensures |Accepted(os)| <= |os|
  {
    if os != [] { AcceptedLength(os[..|os| - 1]); }
  }

  lemma {:induction false} FanItemsLength(es: seq<RoomEvent>)
    ensures |FanItems(es)| <= |es|
  {
    if es != [] { FanItemsLength(es[..|es| - 1]); }
  }

  /** The member the fan-out is about to reach has been offered fewer items
      than there are events, so its Send has room. */
  lemma SendHasRoom(r: Room, u: UserId)
    requires Members(r) && Sends(r) && Recorded(r) && r.loop.Fanning? && u in r.loop.pending
    requires |r.h.enqueued| <= r.cap
    ensures u in r.users && r.users[u] in r.sessions && |r.sessions[r.users[u]].send| < r.cap
  {
    PendingMemberIsOpen(r, u);
    var s := r.sessions[r.users[u]];
    assert Outbox(s) && OfferedUpTo(r.h.fanned, s.h, End(r, s));
    AcceptedLength(s.h.offered);
    FanItemsLength(r.h.enqueued[..Done(r)]);
  }

  /** The next thing session x says or schedules carries a new known tag. */
  lemma OwnPushIsNew(c: Cluster, s: ServerId, ref: RoomRef, x: SessionId)
    requires ClusterOk(c) && s in c.servers && ref in c.servers[s].heap && x in c.servers[s].heap[ref].sessions
    requires c.servers[s].heap[ref].sessions[x].h.queuedAt.None?
    ensures var r := c.servers[s].heap[ref];
      var tag := Tag(s, r.id, x, |r.sessions[x].h.said|);
      NewHere(r, tag) && Known(c, r.id, tag)
  {
    var r := c.servers[s].heap[ref];
    assert Tagged(r) && c.servers[s].rooms[r.id] == ref;
    NextOwnTagIsNew(r, x);
  }

  lemma SpeakerHasNotScheduled(r: Room, a: Action)
    requires Phases(r) && Enabled(r, a) && Pushes(r, a) && !a.Remote?
    ensures a.x in r.sessions && r.sessions[a.x].h.queuedAt.None?
  {
    assert PhaseOk(r.sessions[a.x]);
  }

  lemma PushFits(c: Cluster, s: ServerId, ref: RoomRef, a: Action, u: nat, m: nat)
    requires ClusterOk(c) && s in c.servers && ref in c.servers[s].heap && Enabled(c.servers[s].heap[ref], a)
    requires Within(c, c.servers[s].heap[ref].id, u, m) && u * (m + 3) <= c.servers[s].heap[ref].cap
    requires a.Remote? ==> NewHere(c.servers[s].heap[ref], a.item.tag)
    requires a.Remote? ==> Known(c, c.servers[s].heap[ref].id, a.item.tag)
    requires Pushes(c.servers[s].heap[ref], a)
    ensures !Full(c.servers[s].heap[ref])
  {
    var r := c.servers[s].heap[ref];
    ReachedSafe(r);
    if a.Remote? {
      RoomForOneMore(c, s, ref, u, m, a.item.tag);
    } else {
      SpeakerHasNotScheduled(r, a);
      OwnPushIsNew(c, s, ref, a.x);
      RoomForOneMore(c, s, ref, u, m, Tag(s, r.id, a.x, |r.sessions[a.x].h.said|));
    }
    QueueRoom(r, u * (m + 3));
  }

  lemma InRoomLossless(c: Cluster, s: ServerId, ref: RoomRef, a: Action, u: nat, m: nat)
    requires ClusterOk(c) && s in c.servers && ref in c.servers[s].heap && Enabled(c.servers[s].heap[ref], a)
    requires Within(c, c.servers[s].heap[ref].id, u, m) && u * (m + 3) <= c.servers[s].heap[ref].cap
    requires a.Remote? ==> NewHere(c.servers[s].heap[ref], a.item.tag)
    requires a.Remote? ==> Known(c, c.servers[s].heap[ref].id, a.item.tag)
    requires Lossless(c.servers[s].heap[ref])
    ensures Lossless(Next(c.servers[s].heap[ref], a))
  {
    var r := c.servers[s].heap[ref];
    if a.FanOne? {
      EnqueuedFits(c, s, ref, u, m);
      ReachedRecorded(r);
      SendHasRoom(r, a.u);
      FanOneLosses(r, a.u);
    } else {
      if Pushes(r, a) { PushFits(c, s, ref, a, u, m); }
      StepLosses(r, a);
      SameLossesKeep(r, Next(r, a));
    }
  }

  // ---------------------------------------------------------- growing clusters

  ghost predicate ServerEvolves(s: Server, t: Server) {
    && t.id == s.id && t.cap == s.cap
    && (forall room :: room in s.rooms ==> room in t.rooms && t.rooms[room] == s.rooms[room])
    && (forall ref :: ref in s.heap ==> ref in t.heap && RoomEvolves(s.heap[ref], t.heap[ref]))
  }

  ghost predicate Evolved(c: Cluster, d: Cluster) {
    d.servers.Keys == c.servers.Keys
    && forall s :: s in c.servers ==> ServerEvolves(c.servers[s], d.servers[s])
  }

  lemma InRoomEvolves(s: Server, ref: RoomRef, a: Action)
    requires ServerOk(s) && ref in s.heap && Enabled(s.heap[ref], a)
    ensures ServerEvolves(s, InRoomAfter(s, ref, a))
  {
    ReachedKept(s.heap[ref], a);
  }

  lemma CreateEvolves(s: Server, roomId: RoomId, ref: RoomRef)
    requires RoomsOk(s) && ref !in s.heap
    ensures ServerEvolves(s, AfterCreate(s, roomId, ref))
  {}

  /** The arrivals have no part in it. */
  lemma SameButArrivals(s: Server, t: Server, u: Server)
    requires ServerEvolves(s, t) && u == t.(arrivals := u.arrivals)
    ensures ServerEvolves(s, u)
  {}

  lemma StaysTheSame(s: Server)
    ensures ServerEvolves(s, s)
  {}

  lemma ServerStepEvolves(s: Server, a: ServerAction)
    requires ServerOk(s) && ServerEnabled(s, a)
    ensures ServerEvolves(s, ServerNext(s, a))
  {
    match a
    case InRoom(ref, act) => InRoomEvolves(s, ref, act);
    case Join(j, x) =>
      var r := s.arrivals[j];
      InRoomEvolves(s, r.ref, Enter(x, r.join));
      SameButArrivals(s, InRoomAfter(s, r.ref, Enter(x, r.join)), ServerNext(s, a));
    case Create(j, ref) =>
      CreateEvolves(s, s.arrivals[j].roomId, ref);
      SameButArrivals(s, AfterCreate(s, s.arrivals[j].roomId, ref), ServerNext(s, a));
    case _ => StaysTheSame(s); SameButArrivals(s, s, ServerNext(s, a));
  }

  lemma OneServerEvolves(c: Cluster, d: Cluster, s: ServerId, t: Server)
    requires s in c.servers && ServerEvolves(c.servers[s], t) && d.servers == c.servers[s := t]
    ensures Evolved(c, d)
  {
    forall u | u in c.servers ensures ServerEvolves(c.servers[u], d.servers[u]) { StaysTheSame(c.servers[u]); }
  }

  lemma NoServerEvolves(c: Cluster, d: Cluster)
    requires d.servers == c.servers
    ensures Evolved(c, d)
  {
    forall u | u in c.servers ensures ServerEvolves(c.servers[u], d.servers[u]) { StaysTheSame(c.servers[u]); }
  }

  lemma PublishEvolves(c: Cluster, s: ServerId, ref: RoomRef, x: SessionId, cancelled: bool)
    requires Parts(c) && PublishEnabled(c, s, ref, x) && (!cancelled ==> HasRoom(c.pipes[s]))
    ensures Evolved(c, AfterPublish(c, s, ref, x, cancelled))
  {
    InRoomEvolves(c.servers[s], ref, Handoff(x));
    OneServerEvolves(c, AfterPublish(c, s, ref, x, cancelled), s, InRoomAfter(c.servers[s], ref, Handoff(x)));
  }

  lemma ConsumeEvolves(c: Cluster, s: ServerId, room: RoomId)
    requires Parts(c) && Unread(c, s, room)
    ensures Evolved(c, AfterConsume(c, s, room))
  {
    var qm := LogOf(c, room)[ReadOf(c, s, room)];
    var server := c.servers[s];
    if room in server.handlers && server.handlers[room] in server.heap && qm.serverId != server.id {
      var a := Remote(Item(qm.id, Some(Rebuild(qm))));
      InRoomEvolves(server, server.handlers[room], a);
      OneServerEvolves(c, AfterConsume(c, s, room), s, InRoomAfter(server, server.handlers[room], a));
    } else {
      NoServerEvolves(c, AfterConsume(c, s, room));
    }
  }

  lemma LocalEvolves(c: Cluster, s: ServerId, act: ServerAction)
    requires Parts(c) && s in c.servers && ServerEnabled(c.servers[s], act)
    ensures Evolved(c, WithServer(c, s, ServerNext(c.servers[s], act)))
  {
    ServerStepEvolves(c.servers[s], act);
    OneServerEvolves(c, WithServer(c, s, ServerNext(c.servers[s], act)), s, ServerNext(c.servers[s], act));
  }

  lemma DownstreamEvolves(c: Cluster, a: ClusterAction)
    requires Parts(c) && ClusterEnabled(c, a) && Downstream(a)
    ensures Evolved(c, ClusterNext(c, a))
  {
    if a.Consume? {
      ConsumeEvolves(c, a.s, a.room);
    } else if a.InPipe? {
      InPipeSameServers(c, a.s, a.pact, a.delivered);
      NoServerEvolves(c, AfterInPipe(c, a.s, a.pact, a.delivered));
    } else {
      NoServerEvolves(c, Advance(c, a.s, a.room));
    }
  }

  lemma InPipeSameServers(c: Cluster, s: ServerId, pact: PipeAction, delivered: bool)
    requires s in c.pipes && PipeEnabled(c.pipes[s], pact)
    ensures AfterInPipe(c, s, pact, delivered).servers == c.servers
  {}

  lemma ClusterStepEvolves(c: Cluster, a: ClusterAction)
    requires Parts(c) && ClusterEnabled(c, a)
    ensures Evolved(c, ClusterNext(c, a))
  {
    if Downstream(a) {
      DownstreamEvolves(c, a);
    } else if a.Local? {
      LocalEvolves(c, a.s, a.act);
    } else {
      PublishEvolves(c, a.s, a.ref, a.x, a.PublishCancelled?);
    }
  }

  lemma {:induction false} SubsetSize(a: set<Speaker>, b: set<Speaker>)
    requires a <= b
    ensures |a| <= |b|
  {
    if a != {} {
      var p :| p in a;
      SubsetSize(a - {p}, b - {p});
    }
  }

  lemma SpeakersGrow(c: Cluster, d: Cluster, room: RoomId)
    requires Parts(c) && Evolved(c, d)
    ensures Speakers(c, room) <= Speakers(d, room)
    ensures forall p :: p in Speakers(c, room) ==> TextsOf(c, room, p) <= TextsOf(d, room, p)
  {
    forall p | p in Speakers(c, room) ensures p in Speakers(d, room) && TextsOf(c, room, p) <= TextsOf(d, room, p) {
      assert ServerEvolves(c.servers[p.0], d.servers[p.0]);
      var ref := c.servers[p.0].rooms[room];
      assert RoomEvolves(c.servers[p.0].heap[ref], d.servers[p.0].heap[ref]);
    }
  }

  lemma WithinBefore(c: Cluster, d: Cluster, room: RoomId, u: nat, m: nat)
    requires Parts(c) && Evolved(c, d) && Within(d, room, u, m)
    ensures Within(c, room, u, m)
  {
    SpeakersGrow(c, d, room);
    SubsetSize(Speakers(c, room), Speakers(d, room));
  }

  ghost predicate CapsAtLeast(c: Cluster, n: nat) { forall s :: s in c.servers ==> n <= c.servers[s].cap }

  lemma {:induction false} WithinThroughout(c: Cluster, acts: seq<ClusterAction>, d: Cluster, room: RoomId, u: nat,
                                            m: nat)
    requires ClusterOk(c) && ClusterRun(c, acts, d) && Within(d, room, u, m)
    ensures Within(c, room, u, m)
    ensures (forall s :: s in d.servers ==> s in c.servers && c.servers[s].cap == d.servers[s].cap)
    ensures d.servers.Keys == c.servers.Keys
    decreases |acts|
  {
    if acts != [] {
      var e := ClusterNext(c, acts[0]);
      ClusterOkKept(c, acts[0]);
      WithinThroughout(e, acts[1..], d, room, u, m);
      ClusterStepEvolves(c, acts[0]);
      WithinBefore(c, e, room, u, m);
    }
  }

  // ------------------------------------------------------------- main result

  ghost predicate ServerLossless(s: Server, room: RoomId) {
    room in s.rooms && s.rooms[room] in s.heap ==> Lossless(s.heap[s.rooms[room]])
  }

  ghost predicate RoomLossless(c: Cluster, room: RoomId) {
    forall s :: s in c.servers ==> ServerLossless(c.servers[s], room)
  }

  /** The room's budget, and that every server's buffers are made for it. */
  ghost predicate Budget(c: Cluster, room: RoomId, u: nat, m: nat) {
    Within(c, room, u, m) && CapsAtLeast(c, u * (m + 3))
  }

  lemma RoomWasLossless(s: Server, ref: RoomRef)
    requires RoomsOk(s) && ref in s.heap && ServerLossless(s, s.heap[ref].id)
    ensures Lossless(s.heap[ref]) && s.heap[ref].cap == s.cap
  {}

  lemma OneRoomLossless(s: Server, t: Server, ref: RoomRef, room: RoomId)
    requires RoomsOk(s) && ServerLossless(s, room) && t.rooms == s.rooms
    requires ref in s.heap && ref in t.heap && t.heap == s.heap[ref := t.heap[ref]]
    requires s.heap[ref].id == room ==> Lossless(t.heap[ref])
    ensures ServerLossless(t, room)
  {}

  lemma InRoomServerLossless(c: Cluster, s: ServerId, ref: RoomRef, a: Action, room: RoomId, u: nat, m: nat)
    requires ClusterOk(c) && s in c.servers && ref in c.servers[s].heap && Enabled(c.servers[s].heap[ref], a)
    requires Budget(c, room, u, m) && ServerLossless(c.servers[s], room)
    requires a.Remote? ==> NewHere(c.servers[s].heap[ref], a.item.tag)
    requires a.Remote? ==> Known(c, c.servers[s].heap[ref].id, a.item.tag)
    ensures ServerLossless(InRoomAfter(c.servers[s], ref, a), room)
  {
    assert RoomsOk(c.servers[s]);
    if c.servers[s].heap[ref].id == room {
      RoomWasLossless(c.servers[s], ref);
      InRoomLossless(c, s, ref, a, u, m);
    }
    OneRoomLossless(c.servers[s], InRoomAfter(c.servers[s], ref, a), ref, room);
  }

  lemma CreateLossless(s: Server, roomId: RoomId, ref: RoomRef, room: RoomId)
    requires RoomsOk(s) && ServerLossless(s, room) && ref !in s.heap
    ensures ServerLossless(AfterCreate(s, roomId, ref), room)
  {}

  lemma ArrivalsApart(s: Server, t: Server, room: RoomId)
    requires ServerLossless(s, room) && t == s.(arrivals := t.arrivals)
    ensures ServerLossless(t, room)
  {}

  lemma ArrivalLossless(s: Server, act: ServerAction, room: RoomId)
    requires RoomsOk(s) && ServerLossless(s, room) && ServerEnabled(s, act) && !act.InRoom? && !act.Join?
    ensures ServerLossless(ServerNext(s, act), room)
  {
    if act.Create? {
      CreateLossless(s, s.arrivals[act.j].roomId, act.ref, room);
      ArrivalsApart(AfterCreate(s, s.arrivals[act.j].roomId, act.ref), ServerNext(s, act), room);
    } else {
      ArrivalsApart(s, ServerNext(s, act), room);
    }
  }

  lemma JoinLossless(c: Cluster, s: ServerId, j: nat, x: SessionId, room: RoomId, u: nat, m: nat)
    requires ClusterOk(c) && s in c.servers && ServerEnabled(c.servers[s], Join(j, x))
    requires Budget(c, room, u, m) && ServerLossless(c.servers[s], room)
    ensures ServerLossless(ServerNext(c.servers[s], Join(j, x)), room)
  {
    var r := c.servers[s].arrivals[j];
    InRoomServerLossless(c, s, r.ref, Enter(x, r.join), room, u, m);
    ArrivalsApart(InRoomAfter(c.servers[s], r.ref, Enter(x, r.join)), ServerNext(c.servers[s], Join(j, x)), room);
  }

  lemma ServerStepLossless(c: Cluster, s: ServerId, act: ServerAction, room: RoomId, u: nat, m: nat)
    requires ClusterOk(c) && s in c.servers && ServerEnabled(c.servers[s], act) && (act.InRoom? ==> !act.act.Remote?)
    requires Budget(c, room, u, m) && ServerLossless(c.servers[s], room)
    ensures ServerLossless(ServerNext(c.servers[s], act), room)
  {
    if act.InRoom? {
      InRoomServerLossless(c, s, act.ref, act.act, room, u, m);
    } else if act.Join? {
      JoinLossless(c, s, act.j, act.x, room, u, m);
    } else {
      assert RoomsOk(c.servers[s]);
      ArrivalLossless(c.servers[s], act, room);
    }
  }

  lemma ConsumeLossless(c: Cluster, s: ServerId, q: RoomId, room: RoomId, u: nat, m: nat)
    requires ClusterOk(c) && Unread(c, s, q) && Budget(c, room, u, m) && ServerLossless(c.servers[s], room)
    ensures s in AfterConsume(c, s, q).servers && ServerLossless(AfterConsume(c, s, q).servers[s], room)
  {
    var j := ReadOf(c, s, q);
    var qm := LogOf(c, q)[j];
    var server := c.servers[s];
    LoggedServerId(c, q, j);
    if q in server.handlers && qm.serverId != s {
      HandlerRoom(server, q);
      var ref := server.handlers[q];
      assert RoomImports(c, s, server.heap[ref]);
      NextIsFresh(c, s, ref, q);
      LoggedIsKnown(c, q, j);
      InRoomServerLossless(c, s, ref, Remote(Item(qm.id, Some(Rebuild(qm)))), room, u, m);
    }
  }

  /** Only the acting server changes. */
  lemma OneServerLossless(c: Cluster, d: Cluster, s: ServerId, room: RoomId)
    requires RoomLossless(c, room) && s in c.servers && s in d.servers && d.servers == c.servers[s := d.servers[s]]
    requires ServerLossless(d.servers[s], room)
    ensures RoomLossless(d, room)
  {}

  lemma PublishLossless(c: Cluster, s: ServerId, ref: RoomRef, x: SessionId, cancelled: bool, room: RoomId, u: nat,
                        m: nat)
    requires ClusterOk(c) && PublishEnabled(c, s, ref, x) && (!cancelled ==> HasRoom(c.pipes[s]))
    requires Budget(c, room, u, m) && RoomLossless(c, room)
    ensures RoomLossless(AfterPublish(c, s, ref, x, cancelled), room)
  {
    InRoomServerLossless(c, s, ref, Handoff(x), room, u, m);
    OneServerLossless(c, AfterPublish(c, s, ref, x, cancelled), s, room);
  }

  lemma OnlyConsumerChanges(c: Cluster, s: ServerId, q: RoomId)
    requires Unread(c, s, q)
    ensures var d := AfterConsume(c, s, q); s in d.servers && d.servers == c.servers[s := d.servers[s]]
  {}

  lemma LocalLossless(c: Cluster, s: ServerId, act: ServerAction, room: RoomId, u: nat, m: nat)
    requires ClusterOk(c) && s in c.servers && ServerEnabled(c.servers[s], act) && (act.InRoom? ==> !act.act.Remote?)
    requires Budget(c, room, u, m) && RoomLossless(c, room)
    ensures RoomLossless(WithServer(c, s, ServerNext(c.servers[s], act)), room)
  {
    ServerStepLossless(c, s, act, room, u, m);
    OneServerLossless(c, WithServer(c, s, ServerNext(c.servers[s], act)), s, room);
  }

  lemma ConsumedLossless(c: Cluster, s: ServerId, q: RoomId, room: RoomId, u: nat, m: nat)
    requires ClusterOk(c) && Unread(c, s, q) && Budget(c, room, u, m) && RoomLossless(c, room)
    ensures RoomLossless(AfterConsume(c, s, q), room)
  {
    ConsumeLossless(c, s, q, room, u, m);
    OnlyConsumerChanges(c, s, q);
    OneServerLossless(c, AfterConsume(c, s, q), s, room);
  }

  lemma DownstreamLossless(c: Cluster, a: ClusterAction, room: RoomId, u: nat, m: nat)
    requires ClusterOk(c) && ClusterEnabled(c, a) && Downstream(a)
    requires Budget(c, room, u, m) && RoomLossless(c, room)
    ensures RoomLossless(ClusterNext(c, a), room)
  {
    if a.Consume? {
      ConsumedLossless(c, a.s, a.room, room, u, m);
    } else {
      StillLossless(c, a, room);
    }
  }

  lemma StillLossless(c: Cluster, a: ClusterAction, room: RoomId)
    requires ClusterEnabled(c, a) && (a.InPipe? || a.Lose?) && RoomLossless(c, room)
    ensures RoomLossless(ClusterNext(c, a), room)
  {
    if a.InPipe? {
      InPipeSameServers(c, a.s, a.pact, a.delivered);
      SameServersLossless(c, AfterInPipe(c, a.s, a.pact, a.delivered), room);
    } else {
      SameServersLossless(c, Advance(c, a.s, a.room), room);
    }
  }

  lemma SameServersLossless(c: Cluster, d: Cluster, room: RoomId)
    requires RoomLossless(c, room) && d.servers == c.servers
    ensures RoomLossless(d, room)
  {}

  lemma StepLossless(c: Cluster, a: ClusterAction, room: RoomId, u: nat, m: nat)
    requires ClusterOk(c) && ClusterEnabled(c, a) && Budget(c, room, u, m) && RoomLossless(c, room)
    ensures RoomLossless(ClusterNext(c, a), room)
  {
    if Downstream(a) {
      DownstreamLossless(c, a, room, u, m);
    } else if a.Local? {
      LocalLossless(c, a.s, a.act, room, u, m);
    } else {
      PublishLossless(c, a.s, a.ref, a.x, a.PublishCancelled?, room, u, m);
    }
  }

  lemma {:induction false} LosslessThroughout(c: Cluster, acts: seq<ClusterAction>, d: Cluster, room: RoomId, u: nat,
                                              m: nat)
    requires ClusterOk(c) && ClusterRun(c, acts, d) && Budget(d, room, u, m) && RoomLossless(c, room)
    ensures RoomLossless(d, room)
    decreases |acts|
  {
    if acts != [] {
      WithinThroughout(c, acts, d, room, u, m);
      StepLossless(c, acts[0], room, u, m);
      ClusterOkKept(c, acts[0]);
      LosslessThroughout(ClusterNext(c, acts[0]), acts[1..], d, room, u, m);
    }
  }

  /** Sizing: if up to now the room has seen, over all servers, at most u
      sessions with at most m texts each, and every server's BufferSize is at
      least u * (m + 3), then no push into that room's Broadcast and no put into
      a Send ever found it full, nobody fell back to direct removal, and every
      session's Send accepted its whole window without a gap. */
  lemma NothingIsDropped(start: Cluster, acts: seq<ClusterAction>, c: Cluster, room: RoomId, u: nat, m: nat,
                         s: ServerId, ref: RoomRef)
    requires ClusterStart(start) && ClusterRun(start, acts, c)
    requires |Speakers(c, room)| <= u && forall p :: p in Speakers(c, room) ==> TextsOf(c, room, p) <= m
    requires forall t :: t in c.servers ==> u * (m + 3) <= c.servers[t].cap
    requires s in c.servers && ref in c.servers[s].heap && c.servers[s].heap[ref].id == room
    ensures var r := c.servers[s].heap[ref];
      && r.droppedBroadcast == 0 && r.h.lostRemote == 0 && r.droppedSend == 0 && r.h.fallbacks == 0
      && forall x :: x in r.sessions ==>
           var h := r.sessions[x].h;
           0 <= h.joinedAt <= End(r, r.sessions[x]) <= |r.h.fanned|
           && Accepted(h.offered) == r.h.fanned[h.joinedAt..End(r, r.sessions[x])]
  {
    StartOk(start);
    ClusterOkAlways(start, acts, c);
    assert RoomLossless(start, room);
    LosslessThroughout(start, acts, c, room, u, m);
    var r := c.servers[s].heap[ref];
    assert Lossless(r) by { assert ServerLossless(c.servers[s], room) && c.servers[s].rooms[room] == ref; }
    assert Reached(r);
    ReachedRecorded(r);
    WholeWindows(r);
  }

  lemma {:induction false} AllAcceptedItems(os: seq<Offer>)
    requires forall i :: 0 <= i < |os| ==> os[i].accepted
    ensures Accepted(os) == Items(os)
  {
    if os != [] {
      AllAcceptedItems(os[..|os| - 1]);
      assert Items(os) == Items(os[..|os| - 1]) + [os[|os| - 1].item];
    }
  }

  lemma WholeWindows(r: Room)
    requires Windows(r) && Lossless(r)
    ensures forall x :: x in r.sessions ==>
      var h := r.sessions[x].h;
      0 <= h.joinedAt <= End(r, r.sessions[x]) <= |r.h.fanned|
      && Accepted(h.offered) == r.h.fanned[h.joinedAt..End(r, r.sessions[x])]
  {
    forall x | x in r.sessions
      ensures var h := r.sessions[x].h;
        0 <= h.joinedAt <= End(r, r.sessions[x]) <= |r.h.fanned|
        && Accepted(h.offered) == r.h.fanned[h.joinedAt..End(r, r.sessions[x])]
    {
      var h := r.sessions[x].h;
      OfferedSlice(r.h.fanned, h, End(r, r.sessions[x]));
      AllAcceptedItems(h.offered);
    }
  }
}
