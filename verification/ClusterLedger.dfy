/** No loss without a trace: what becomes of every copy a server's queue for a
    room has delivered, over whole runs of a cluster. */
module ClusterLedger {
  import opened Basics
  import opened Models
  import opened RoomProtocol
  import opened RoomTags
  import opened ChatServer
  import opened Pipeline
  import opened Cluster

  // ---------------------------------------------------------------- one room

  /** Positions of the events of other servers' sessions. */
  function ForeignAt(es: seq<RoomEvent>, s: ServerId): set<nat> {
    set k: nat | k < |es| && es[k].item.tag.server != s
  }

  function Foreign(es: seq<RoomEvent>, s: ServerId): nat { |ForeignAt(es, s)| }

  lemma OwnEventsAdded(es: seq<RoomEvent>, more: seq<RoomEvent>, s: ServerId)
    requires es <= more && forall k :: |es| <= k < |more| ==> more[k].item.tag.server == s
    ensures Foreign(more, s) == Foreign(es, s)
  {
    assert ForeignAt(more, s) == ForeignAt(es, s);
  }

  /** Remote responses that reached the room: enqueued, or lost to a full
      Broadcast. */
  function Landed(r: Room): nat { Foreign(r.h.enqueued, r.server) + r.h.lostRemote }

  lemma SpeakerLosesNothing(r: Room, a: Action)
    requires Enabled(r, a) && (a.Greet? || a.Hear? || a.Schedule?)
    ensures Next(r, a).h.lostRemote == r.h.lostRemote && Next(r, a).server == r.server
  {
    if a.Greet? {
      SayLosesNothing(r, a.x, r.sessions[a.x].join, false, a.created, a.stamped);
    } else if a.Hear? {
      HearLosesNothing(r, a.x, a.input, a.created, a.stamped);
    }
  }

  lemma SayLosesNothing(r: Room, x: SessionId, m: Message, leaving: bool, created: string, stamped: string)
    requires x in r.sessions
    ensures var t := Say(r, x, m, leaving, created, stamped);
      t.h.lostRemote == r.h.lostRemote && t.server == r.server
  {}

  lemma HearLosesNothing(r: Room, x: SessionId, input: Input, created: string, stamped: string)
    requires x in r.sessions
    ensures var t := AfterHear(r, x, input, created, stamped); t.h.lostRemote == r.h.lostRemote && t.server == r.server
  {
    match Reaction(r.sessions[x], input)
    case None =>
    case Some((m, leaving)) => SayLosesNothing(if leaving then r else CountText(r, x), x, m, leaving, created, stamped);
  }

  lemma OwnStepLands(r: Room, a: Action)
    requires Enabled(r, a) && !a.Remote?
    ensures Landed(Next(r, a)) == Landed(r)
  {
    if Speaks(a) {
      SpeakerLosesNothing(r, a);
    } else {
      OthersAreSilent(r, a);
      OthersPushNothing(r, a);
    }
    StepsAddOwn(r, a);
    OwnEventsAdded(r.h.enqueued, Next(r, a).h.enqueued, r.server);
  }

  lemma RemoteLands(r: Room, item: Item)
    requires item.tag.server != r.server
    ensures Landed(AfterRemote(r, item)) == Landed(r) + 1
  {
    var es := r.h.enqueued;
    assert ForeignAt(es + [RoomEvent(item, "")], r.server) == ForeignAt(es, r.server) + {|es|};
  }

  // -------------------------------------------------------------- one server

  function LandedIn(s: Server, room: RoomId): nat {
    if room in s.rooms && s.rooms[room] in s.heap then Landed(s.heap[s.rooms[room]]) else 0
  }

  lemma OneRoomLands(s: Server, t: Server, ref: RoomRef, room: RoomId)
    requires RoomsOk(s) && t.rooms == s.rooms && ref in s.heap && ref in t.heap && t.heap == s.heap[ref := t.heap[ref]]
    ensures LandedIn(t, room) - LandedIn(s, room)
         == if s.heap[ref].id == room then Landed(t.heap[ref]) - Landed(s.heap[ref]) else 0
  {}

  lemma InRoomLands(s: Server, ref: RoomRef, a: Action, room: RoomId)
    requires RoomsOk(s) && ref in s.heap && Enabled(s.heap[ref], a)
    requires a.Remote? ==> a.item.tag.server != s.id
    ensures LandedIn(InRoomAfter(s, ref, a), room)
         == LandedIn(s, room) + if a.Remote? && s.heap[ref].id == room then 1 else 0
  {
    if a.Remote? { RemoteLands(s.heap[ref], a.item); } else { OwnStepLands(s.heap[ref], a); }
    OneRoomLands(s, InRoomAfter(s, ref, a), ref, room);
  }

  lemma CreateLands(s: Server, roomId: RoomId, ref: RoomRef, room: RoomId)
    requires RoomsOk(s) && ref !in s.heap
    ensures LandedIn(AfterCreate(s, roomId, ref), room) == LandedIn(s, room)
  {}

  lemma JoinLands(s: Server, j: nat, x: SessionId, room: RoomId)
    requires RoomsOk(s) && ServerEnabled(s, Join(j, x))
    ensures LandedIn(ServerNext(s, Join(j, x)), room) == LandedIn(s, room)
  {
    InRoomLands(s, s.arrivals[j].ref, Enter(x, s.arrivals[j].join), room);
  }

  lemma ServerStepLands(s: Server, act: ServerAction, room: RoomId)
    requires RoomsOk(s) && ServerEnabled(s, act) && (act.InRoom? ==> !act.act.Remote?)
    ensures LandedIn(ServerNext(s, act), room) == LandedIn(s, room)
  {
    if act.InRoom? {
      InRoomLands(s, act.ref, act.act, room);
    } else if act.Join? {
      JoinLands(s, act.j, act.x, room);
    } else if act.Create? {
      CreateLands(s, s.arrivals[act.j].roomId, act.ref, room);
    }
  }

  // ---------------------------------------------------------------- the cluster

  /** What the next copy of a queue is, were it delivered now. */
  predicate Routed(c: Cluster, s: ServerId, room: RoomId)
    requires Unread(c, s, room)
  {
    room in c.servers[s].handlers
  }

  predicate FromHere(c: Cluster, s: ServerId, room: RoomId)
    requires Unread(c, s, room)
  {
    LogOf(c, room)[ReadOf(c, s, room)].serverId == s
  }

  /** A copy of the server's own message, filtered out by the room's closure. */
  function FilteredNow(c: Cluster, a: ClusterAction, s: ServerId, room: RoomId): nat {
    if a == Consume(s, room) && Unread(c, s, room) && Routed(c, s, room) && FromHere(c, s, room) then 1 else 0
  }

  /** A copy read before the room existed here. */
  function UnroutedNow(c: Cluster, a: ClusterAction, s: ServerId, room: RoomId): nat {
    if a == Consume(s, room) && Unread(c, s, room) && !Routed(c, s, room) then 1 else 0
  }

  /** A copy the broker lost. */
  function BrokerLostNow(c: Cluster, a: ClusterAction, s: ServerId, room: RoomId): nat {
    if a == Lose(s, room) then 1 else 0
  }

  /** A copy that does not reach the room, for any of these reasons. */
  function StrayNow(c: Cluster, a: ClusterAction, s: ServerId, room: RoomId): nat {
    FilteredNow(c, a, s, room) + UnroutedNow(c, a, s, room) + BrokerLostNow(c, a, s, room)
  }

  lemma NoStray(c: Cluster, a: ClusterAction, s: ServerId, room: RoomId)
    requires a != Consume(s, room) && a != Lose(s, room)
    ensures StrayNow(c, a, s, room) == 0
  {}

  lemma ConsumedStray(c: Cluster, s: ServerId, room: RoomId)
    requires Unread(c, s, room)
    ensures StrayNow(c, Consume(s, room), s, room) == if Routed(c, s, room) && !FromHere(c, s, room) then 0 else 1
  {}

  lemma LostStray(c: Cluster, s: ServerId, room: RoomId)
    ensures StrayNow(c, Lose(s, room), s, room) == 1
  {}

  /** g summed over the steps of a run. */
  function SumIn(c: Cluster, acts: seq<ClusterAction>, g: (Cluster, ClusterAction) -> nat): nat
    decreases |acts|
  {
    if acts == [] || !ClusterEnabled(c, acts[0]) then 0
    else g(c, acts[0]) + SumIn(ClusterNext(c, acts[0]), acts[1..], g)
  }

  /** Own messages filtered out in a run, copies read too early, copies lost. */
  function FilteredIn(c: Cluster, acts: seq<ClusterAction>, s: ServerId, room: RoomId): nat {
    SumIn(c, acts, (e, a) => FilteredNow(e, a, s, room))
  }

  function UnroutedIn(c: Cluster, acts: seq<ClusterAction>, s: ServerId, room: RoomId): nat {
    SumIn(c, acts, (e, a) => UnroutedNow(e, a, s, room))
  }

  function BrokerLostIn(c: Cluster, acts: seq<ClusterAction>, s: ServerId, room: RoomId): nat {
    SumIn(c, acts, (e, a) => BrokerLostNow(e, a, s, room))
  }

  function StrayIn(c: Cluster, acts: seq<ClusterAction>, s: ServerId, room: RoomId): nat {
    FilteredIn(c, acts, s, room) + UnroutedIn(c, acts, s, room) + BrokerLostIn(c, acts, s, room)
  }

  ghost function LandedAt(c: Cluster, s: ServerId, room: RoomId): nat {
    if s in c.servers then LandedIn(c.servers[s], room) else 0
  }

  /** Copies delivered and not landed. */
  ghost function Astray(c: Cluster, s: ServerId, room: RoomId): int { ReadOf(c, s, room) - LandedAt(c, s, room) }

  lemma SameServersAstray(c: Cluster, d: Cluster, s: ServerId, room: RoomId)
    requires d.servers == c.servers && d.read == c.read
    ensures Astray(d, s, room) == Astray(c, s, room)
  {}

  lemma OneServerAstray(c: Cluster, d: Cluster, u: ServerId, s: ServerId, room: RoomId)
    requires u in c.servers && u in d.servers && d.servers == c.servers[u := d.servers[u]] && d.read == c.read
    ensures Astray(d, s, room)
         == Astray(c, s, room) - if s == u then LandedIn(d.servers[u], room) - LandedIn(c.servers[u], room) else 0
  {}

  lemma AdvanceAstray(c: Cluster, s: ServerId, room: RoomId)
    ensures Astray(Advance(c, s, room), s, room) == Astray(c, s, room) + 1
  {}

  lemma OtherQueueAstray(c: Cluster, u: ServerId, q: RoomId, s: ServerId, room: RoomId)
    requires (u, q) != (s, room)
    ensures Astray(Advance(c, u, q), s, room) == Astray(c, s, room)
  {}

  lemma LocalAstray(c: Cluster, u: ServerId, act: ServerAction, s: ServerId, room: RoomId)
    requires Parts(c) && u in c.servers && ServerEnabled(c.servers[u], act) && (act.InRoom? ==> !act.act.Remote?)
    ensures Astray(WithServer(c, u, ServerNext(c.servers[u], act)), s, room) == Astray(c, s, room)
  {
    assert ServerOk(c.servers[u]);
    ServerStepLands(c.servers[u], act, room);
    OneServerAstray(c, WithServer(c, u, ServerNext(c.servers[u], act)), u, s, room);
  }

  lemma PublishAstray(c: Cluster, u: ServerId, ref: RoomRef, x: SessionId, cancelled: bool, s: ServerId, room: RoomId)
    requires Parts(c) && PublishEnabled(c, u, ref, x) && (!cancelled ==> HasRoom(c.pipes[u]))
    ensures Astray(AfterPublish(c, u, ref, x, cancelled), s, room) == Astray(c, s, room)
  {
    assert ServerOk(c.servers[u]);
    InRoomLands(c.servers[u], ref, Handoff(x), room);
    var d := WithServer(c, u, InRoomAfter(c.servers[u], ref, Handoff(x)));
    OneServerAstray(c, d, u, s, room);
    SameServersAstray(d, AfterPublish(c, u, ref, x, cancelled), s, room);
  }

  lemma InPipeAstray(c: Cluster, u: ServerId, pact: PipeAction, delivered: bool, s: ServerId, room: RoomId)
    requires u in c.pipes && PipeEnabled(c.pipes[u], pact)
    ensures Astray(AfterInPipe(c, u, pact, delivered), s, room) == Astray(c, s, room)
  {
    var p := PipeNext(c.pipes[u], pact);
    SameServersAstray(c, WithPipe(c, u, p), s, room);
    if pact.Attempt? && delivered {
      var qm := c.pipes[u].workers[pact.w].msg;
      SameServersAstray(WithPipe(c, u, p), Append(WithPipe(c, u, p), qm), s, room);
    }
  }

  lemma ForwardLands(c: Cluster, u: ServerId, q: RoomId, item: Item, room: RoomId)
    requires Parts(c) && u in c.servers && q in c.servers[u].handlers && c.servers[u].handlers[q] in c.servers[u].heap
    requires item.tag.server != u
    ensures LandedIn(InRoomAfter(c.servers[u], c.servers[u].handlers[q], Remote(item)), room)
         == LandedIn(c.servers[u], room) + if q == room then 1 else 0
  {
    var server := c.servers[u];
    assert ServerOk(server);
    HandlerRoom(server, q);
    InRoomLands(server, server.handlers[q], Remote(item), room);
  }

  lemma ForwardAstray(c: Cluster, d: Cluster, u: ServerId, t: Server, s: ServerId, room: RoomId, k: nat)
    requires u in c.servers && d == WithServer(c, u, t) && LandedIn(t, room) == LandedIn(c.servers[u], room) + k
    ensures Astray(d, s, room) == Astray(c, s, room) - if u == s then k else 0
  {
    OneServerAstray(c, d, u, s, room);
  }

  /** A copy that is forwarded has a room to go to and comes from elsewhere. */
  ghost predicate Forwardable(c: Cluster, u: ServerId, q: RoomId) {
    Unread(c, u, q) && Routed(c, u, q) && !FromHere(c, u, q) ==>
      c.servers[u].handlers[q] in c.servers[u].heap && LogOf(c, q)[ReadOf(c, u, q)].id.server != u
  }

  lemma AlwaysForwardable(c: Cluster, u: ServerId, q: RoomId)
    requires ClusterOk(c) && Unread(c, u, q)
    ensures Forwardable(c, u, q)
  {
    LoggedServerId(c, q, ReadOf(c, u, q));
    assert RoomsOk(c.servers[u]) && c.servers[u].id == u;
    if Routed(c, u, q) { HandlerRoom(c.servers[u], q); }
  }

  lemma ForwardedAstray(c: Cluster, u: ServerId, q: RoomId, s: ServerId, room: RoomId)
    requires Parts(c) && Unread(c, u, q) && Forwardable(c, u, q) && Routed(c, u, q) && !FromHere(c, u, q)
    ensures Astray(AfterConsume(c, u, q), s, room)
         == Astray(Advance(c, u, q), s, room) - if u == s && q == room then 1 else 0
  {
    assert c.servers[u].id == u;
    var qm := LogOf(c, q)[ReadOf(c, u, q)];
    var item := Item(qm.id, Some(Rebuild(qm)));
    ForwardLands(c, u, q, item, room);
    ForwardAstray(Advance(c, u, q), AfterConsume(c, u, q), u,
                  InRoomAfter(c.servers[u], c.servers[u].handlers[q], Remote(item)), s, room,
                  if q == room then 1 else 0);
  }

  lemma ConsumeHere(c: Cluster, s: ServerId, room: RoomId)
    requires Parts(c) && Unread(c, s, room) && Forwardable(c, s, room)
    ensures Astray(AfterConsume(c, s, room), s, room)
         == Astray(c, s, room) + if Routed(c, s, room) && !FromHere(c, s, room) then 0 else 1
  {
    assert c.servers[s].id == s;
    AdvanceAstray(c, s, room);
    if Routed(c, s, room) && !FromHere(c, s, room) { ForwardedAstray(c, s, room, s, room); }
  }

  lemma ConsumeElsewhere(c: Cluster, u: ServerId, q: RoomId, s: ServerId, room: RoomId)
    requires Parts(c) && Unread(c, u, q) && Forwardable(c, u, q) && (u, q) != (s, room)
    ensures Astray(AfterConsume(c, u, q), s, room) == Astray(c, s, room)
  {
    assert c.servers[u].id == u;
    OtherQueueAstray(c, u, q, s, room);
    if Routed(c, u, q) && !FromHere(c, u, q) { ForwardedAstray(c, u, q, s, room); }
  }

  lemma NextConsumes(c: Cluster, s: ServerId, room: RoomId)
    requires Unread(c, s, room)
    ensures ClusterNext(c, Consume(s, room)) == AfterConsume(c, s, room)
  {}

  lemma NextLoses(c: Cluster, s: ServerId, room: RoomId)
    requires Unread(c, s, room)
    ensures ClusterNext(c, Lose(s, room)) == Advance(c, s, room)
  {}

  lemma ConsumedHere(c: Cluster, s: ServerId, room: RoomId)
    requires Parts(c) && Unread(c, s, room) && Forwardable(c, s, room)
    ensures Astray(ClusterNext(c, Consume(s, room)), s, room)
         == Astray(c, s, room) + StrayNow(c, Consume(s, room), s, room)
  {
    ConsumeHere(c, s, room);
    ConsumedStray(c, s, room);
    NextConsumes(c, s, room);
  }

  lemma ConsumedElsewhere(c: Cluster, u: ServerId, q: RoomId, s: ServerId, room: RoomId)
    requires Parts(c) && Unread(c, u, q) && Forwardable(c, u, q) && (u, q) != (s, room)
    ensures Astray(ClusterNext(c, Consume(u, q)), s, room) == Astray(c, s, room)
  {
    ConsumeElsewhere(c, u, q, s, room);
    NextConsumes(c, u, q);
  }

  lemma LostHere(c: Cluster, s: ServerId, room: RoomId)
    requires Unread(c, s, room)
    ensures Astray(ClusterNext(c, Lose(s, room)), s, room) == Astray(c, s, room) + StrayNow(c, Lose(s, room), s, room)
  {
    AdvanceAstray(c, s, room);
    LostStray(c, s, room);
    NextLoses(c, s, room);
  }

  lemma LostElsewhere(c: Cluster, u: ServerId, q: RoomId, s: ServerId, room: RoomId)
    requires Unread(c, u, q) && (u, q) != (s, room)
    ensures Astray(ClusterNext(c, Lose(u, q)), s, room) == Astray(c, s, room)
  {
    OtherQueueAstray(c, u, q, s, room);
    NextLoses(c, u, q);
  }

  lemma UpstreamAstray(c: Cluster, a: ClusterAction, s: ServerId, room: RoomId)
    requires Parts(c) && ClusterEnabled(c, a) && !a.Consume? && !a.Lose?
    ensures Astray(ClusterNext(c, a), s, room) == Astray(c, s, room)
  {
    if a.InPipe? {
      InPipeAstray(c, a.s, a.pact, a.delivered, s, room);
    } else if a.Local? {
      LocalAstray(c, a.s, a.act, s, room);
    } else {
      PublishAstray(c, a.s, a.ref, a.x, a.PublishCancelled?, s, room);
    }
  }

  /** A step that is not on this queue. */
  lemma OffQueueAstray(c: Cluster, a: ClusterAction, s: ServerId, room: RoomId)
    requires Parts(c) && ClusterEnabled(c, a) && a != Consume(s, room) && a != Lose(s, room)
    requires a.Consume? ==> Forwardable(c, a.s, a.room)
    ensures Astray(ClusterNext(c, a), s, room) == Astray(c, s, room)
  {
    if a.Consume? {
      ConsumedElsewhere(c, a.s, a.room, s, room);
    } else if a.Lose? {
      LostElsewhere(c, a.s, a.room, s, room);
    } else {
      UpstreamAstray(c, a, s, room);
    }
  }

  lemma StepAstray(c: Cluster, a: ClusterAction, s: ServerId, room: RoomId)
    requires Parts(c) && ClusterEnabled(c, a) && (a.Consume? ==> Forwardable(c, a.s, a.room))
    ensures Astray(ClusterNext(c, a), s, room) == Astray(c, s, room) + StrayNow(c, a, s, room)
  {
    if a == Consume(s, room) {
      ConsumedHere(c, s, room);
    } else if a == Lose(s, room) {
      LostHere(c, s, room);
    } else {
      OffQueueAstray(c, a, s, room);
      NoStray(c, a, s, room);
    }
  }

  /** One step from a reachable state. */
  lemma StepBooks(c: Cluster, a: ClusterAction, s: ServerId, room: RoomId)
    requires ClusterOk(c) && ClusterEnabled(c, a)
    ensures ClusterOk(ClusterNext(c, a))
    ensures Astray(ClusterNext(c, a), s, room) == Astray(c, s, room) + StrayNow(c, a, s, room)
  {
    if a.Consume? { AlwaysForwardable(c, a.s, a.room); }
    ClusterOkKept(c, a);
    StepAstray(c, a, s, room);
  }

  /** What changes by g at each step changes by the sum of g over a run. */
  lemma {:induction false} Telescopes(c: Cluster, acts: seq<ClusterAction>, d: Cluster, inv: Cluster -> bool,
                                      f: Cluster -> int, g: (Cluster, ClusterAction) -> nat)
    requires inv(c) && ClusterRun(c, acts, d)
    requires forall e, a :: inv(e) && ClusterEnabled(e, a) ==>
      inv(ClusterNext(e, a)) && f(ClusterNext(e, a)) == f(e) + g(e, a)
    ensures f(d) == f(c) + SumIn(c, acts, g)
    decreases |acts|
  {
    if acts != [] { Telescopes(ClusterNext(c, acts[0]), acts[1..], d, inv, f, g); }
  }

  lemma {:induction false} SumsAdd(c: Cluster, acts: seq<ClusterAction>, g: (Cluster, ClusterAction) -> nat,
                                   x: (Cluster, ClusterAction) -> nat, y: (Cluster, ClusterAction) -> nat,
                                   z: (Cluster, ClusterAction) -> nat)
    requires forall e, a :: g(e, a) == x(e, a) + y(e, a) + z(e, a)
    ensures SumIn(c, acts, g) == SumIn(c, acts, x) + SumIn(c, acts, y) + SumIn(c, acts, z)
    decreases |acts|
  {
    if acts != [] && ClusterEnabled(c, acts[0]) { SumsAdd(ClusterNext(c, acts[0]), acts[1..], g, x, y, z); }
  }

  lemma {:induction false} StraysAdd(c: Cluster, acts: seq<ClusterAction>, s: ServerId, room: RoomId,
                                     g: (Cluster, ClusterAction) -> nat)
    requires forall e, a :: g(e, a) == StrayNow(e, a, s, room)
    ensures SumIn(c, acts, g) == StrayIn(c, acts, s, room)
  {
    SumsAdd(c, acts, g, (e, a) => FilteredNow(e, a, s, room), (e, a) => UnroutedNow(e, a, s, room),
            (e, a) => BrokerLostNow(e, a, s, room));
  }

  lemma RunAstray(c: Cluster, acts: seq<ClusterAction>, d: Cluster, s: ServerId, room: RoomId)
    requires ClusterOk(c) && ClusterRun(c, acts, d)
    ensures Astray(d, s, room) == Astray(c, s, room) + StrayIn(c, acts, s, room)
  {
    var inv := (e: Cluster) => ClusterOk(e);
    var f := (e: Cluster) => Astray(e, s, room);
    var g := (e: Cluster, a: ClusterAction) => StrayNow(e, a, s, room);
    forall e, a | inv(e) && ClusterEnabled(e, a)
      ensures inv(ClusterNext(e, a)) && f(ClusterNext(e, a)) == f(e) + g(e, a)
    {
      StepBooks(e, a, s, room);
    }
    Telescopes(c, acts, d, inv, f, g);
    StraysAdd(c, acts, s, room, g);
  }

  // -------------------------------------------------------------- main result

  /** The queue's books, for every server and room after any run: each copy the
      queue has delivered was enqueued in the room, or found its Broadcast full,
      or was this server's own and filtered out, or came before the room
      existed here, or was lost by the broker. */
  lemma QueueLedger(start: Cluster, acts: seq<ClusterAction>, c: Cluster, s: ServerId, ref: RoomRef)
    requires ClusterStart(start) && ClusterRun(start, acts, c)
    requires s in c.servers && ref in c.servers[s].heap
    ensures var r := c.servers[s].heap[ref];
      ReadOf(c, s, r.id)
        == Foreign(r.h.enqueued, s) + r.h.lostRemote
           + FilteredIn(start, acts, s, r.id) + UnroutedIn(start, acts, s, r.id) + BrokerLostIn(start, acts, s, r.id)
  {
    var r := c.servers[s].heap[ref];
    StartOk(start);
    ClusterOkAlways(start, acts, c);
    RunAstray(start, acts, c, s, r.id);
    assert RoomsOk(c.servers[s]);
    StartsEmpty(start, s, r.id);
  }

  lemma StartsEmpty(c: Cluster, s: ServerId, room: RoomId)
    requires ClusterStart(c)
    ensures Astray(c, s, room) == 0
  {}
}
