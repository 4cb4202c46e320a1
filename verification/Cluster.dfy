/** Any number of servers around one broker. The exchange keeps, per room id,
    one copy of every accepted message for each server's queue: a log with one
    read position per server. */
module Cluster {
  import opened Basics
  import opened Models
  import opened RoomProtocol
  import opened RoomSafety
  import opened RoomTags
  import opened ChatServer
  import opened Pipeline

  // ----------------------------------------------------------------- machine

  datatype Cluster = Cluster(
    servers: map<ServerId, Server>,
    pipes: map<ServerId, Pipe>,
    log: map<RoomId, seq<Msg>>,
    read: map<(ServerId, RoomId), nat>)

  function LogOf(c: Cluster, room: RoomId): seq<Msg> { if room in c.log then c.log[room] else [] }

  function ReadOf(c: Cluster, s: ServerId, room: RoomId): nat {
    if (s, room) in c.read then c.read[(s, room)] else 0
  }

  datatype ClusterAction =
    | Local(s: ServerId, act: ServerAction)             // anything a server does by itself
    | Publish(s: ServerId, ref: RoomRef, x: SessionId)  // a handler's message enters publishChan
    | PublishCancelled(s: ServerId, ref: RoomRef, x: SessionId)
    | InPipe(s: ServerId, pact: PipeAction, delivered: bool)
    | Consume(s: ServerId, room: RoomId)                // the consumer goroutine takes one message
    | Lose(s: ServerId, room: RoomId)                   // the broker loses one copy with its queue

  predicate PublishEnabled(c: Cluster, s: ServerId, ref: RoomRef, x: SessionId) {
    && s in c.servers && s in c.pipes && ref in c.servers[s].heap
    && Enabled(c.servers[s].heap[ref], Handoff(x))
  }

  predicate Unread(c: Cluster, s: ServerId, room: RoomId) {
    s in c.servers && room in c.servers[s].bound && ReadOf(c, s, room) < |LogOf(c, room)|
  }

  predicate ClusterEnabled(c: Cluster, a: ClusterAction) {
    match a
    case Local(s, act) =>
      && s in c.servers && ServerEnabled(c.servers[s], act)
      && (act.InRoom? ==> !act.act.Handoff? && !act.act.Remote?)
    case Publish(s, ref, x) => PublishEnabled(c, s, ref, x) && HasRoom(c.pipes[s])
    case PublishCancelled(s, ref, x) => PublishEnabled(c, s, ref, x) && c.servers[s].heap[ref].cancelled
    case InPipe(s, pact, _) => s in c.pipes && PipeEnabled(c.pipes[s], pact) && !pact.Hand? && !pact.HandCancelled?
    case Consume(s, room) => Unread(c, s, room)
    case Lose(s, room) => Unread(c, s, room)
  }

  /** The consumer closure's response: NewResponse on the Message field, with
      the publisher's timestamp. */
  function Rebuild(qm: Msg): Response { NewResponse(qm.message, qm.timestamp) }

  function WithServer(c: Cluster, s: ServerId, server: Server): Cluster {
    c.(servers := c.servers[s := server])
  }

  function WithPipe(c: Cluster, s: ServerId, pipe: Pipe): Cluster { c.(pipes := c.pipes[s := pipe]) }

  function AfterPublish(c: Cluster, s: ServerId, ref: RoomRef, x: SessionId, cancelled: bool): Cluster
    requires PublishEnabled(c, s, ref, x) && (!cancelled ==> HasRoom(c.pipes[s]))
  {
    var qm := c.servers[s].heap[ref].sessions[x].phase.outgoing;
    WithPipe(WithServer(c, s, InRoomAfter(c.servers[s], ref, Handoff(x))), s,
             PipeNext(c.pipes[s], if cancelled then HandCancelled(qm) else Hand(qm)))
  }

  /** The exchange accepts a message. */
  function Append(c: Cluster, qm: Msg): Cluster {
    c.(log := c.log[qm.roomId := LogOf(c, qm.roomId) + [qm]])
  }

  function AfterInPipe(c: Cluster, s: ServerId, pact: PipeAction, delivered: bool): Cluster
    requires s in c.pipes && PipeEnabled(c.pipes[s], pact)
  {
    var c' := WithPipe(c, s, PipeNext(c.pipes[s], pact));
    if pact.Attempt? && delivered then Append(c', c.pipes[s].workers[pact.w].msg) else c'
  }

  function Advance(c: Cluster, s: ServerId, room: RoomId): Cluster {
    c.(read := c.read[(s, room) := ReadOf(c, s, room) + 1])
  }

  /** A message is forwarded to the room registered for it, unless it comes
      from this very server or no room has been registered yet. */
  function AfterConsume(c: Cluster, s: ServerId, room: RoomId): Cluster
    requires Unread(c, s, room)
  {
    var qm := LogOf(c, room)[ReadOf(c, s, room)];
    var server := c.servers[s];
    var c' := Advance(c, s, room);
    if room in server.handlers && server.handlers[room] in server.heap && qm.serverId != server.id then
      WithServer(c', s, InRoomAfter(server, server.handlers[room], Remote(Item(qm.id, Some(Rebuild(qm))))))
    else c'
  }

  function ClusterNext(c: Cluster, a: ClusterAction): Cluster
    requires ClusterEnabled(c, a)
  {
    match a
    case Local(s, act) => WithServer(c, s, ServerNext(c.servers[s], act))
    case Publish(s, ref, x) => AfterPublish(c, s, ref, x, false)
    case PublishCancelled(s, ref, x) => AfterPublish(c, s, ref, x, true)
    case InPipe(s, pact, delivered) => AfterInPipe(c, s, pact, delivered)
    case Consume(s, room) => AfterConsume(c, s, room)
    case Lose(s, room) => Advance(c, s, room)
  }

  ghost predicate ClusterRun(c: Cluster, acts: seq<ClusterAction>, t: Cluster)
    decreases |acts|
  {
    if acts == [] then c == t
    else ClusterEnabled(c, acts[0]) && ClusterRun(ClusterNext(c, acts[0]), acts[1..], t)
  }

  /** Freshly started servers, each with its own id, its pipe and its bound
      rooms. */
  ghost predicate ClusterStart(c: Cluster) {
    && c.pipes.Keys == c.servers.Keys && c.log == map[] && c.read == map[]
    && (forall s :: s in c.servers ==>
          && c.servers[s] == NewServer(s, c.servers[s].cap, c.servers[s].bound)
          && c.pipes[s] == NewPipe(c.pipes[s].chanCap, c.pipes[s].tempCap, |c.pipes[s].workers|))
  }

  /** Steps that start from the broker's side or the publish side. */
  predicate Downstream(a: ClusterAction) { a.InPipe? || a.Consume? || a.Lose? }

  // -------------------------------------------------------------- invariants

  ghost predicate Parts(c: Cluster) {
    && c.pipes.Keys == c.servers.Keys
    && (forall s :: s in c.servers ==> c.servers[s].id == s && ServerOk(c.servers[s]))
    && (forall s :: s in c.pipes ==> PipeOk(c.pipes[s]))
  }

  ghost predicate AllTagged(c: Cluster) {
    forall s, ref :: s in c.servers && ref in c.servers[s].heap ==> Tagged(c.servers[s].heap[ref])
  }

  /** qm was handed over by a session of this server. */
  ghost predicate FromServer(server: Server, qm: Msg) {
    && qm.id.server == server.id && qm.id.room in server.rooms
    && server.rooms[qm.id.room] in server.heap
    && HandedBy(server.heap[server.rooms[qm.id.room]], qm)
  }

  ghost predicate DistinctIds(ms: seq<Msg>) {
    forall i, j :: 0 <= i < j < |ms| ==> ms[i].id != ms[j].id
  }

  ghost predicate HandedOk(server: Server, handed: seq<Msg>) {
    && (forall k :: 0 <= k < |handed| ==> FromServer(server, handed[k]))
    && DistinctIds(handed)
  }

  ghost predicate AllHanded(c: Cluster) {
    forall s :: s in c.servers && s in c.pipes ==> HandedOk(c.servers[s], c.pipes[s].h.handed)
  }

  /** The exchange holds each message at most once, under its own room, and
      only what its server's breaker let through. */
  ghost predicate Logged(c: Cluster) {
    forall room :: room in c.log ==>
      && DistinctIds(c.log[room])
      && forall k :: 0 <= k < |c.log[room]| ==>
           var qm := c.log[room][k];
           qm.roomId == room && qm.id.room == room && qm.id.server in c.pipes
           && qm in c.pipes[qm.id.server].h.attempts
  }

  /** A foreign response in Broadcast was rebuilt from a message this server's
      queue has already delivered. */
  ghost predicate FromLog(c: Cluster, s: ServerId, room: RoomId, item: Item) {
    exists j :: 0 <= j < ReadOf(c, s, room) && j < |LogOf(c, room)|
      && LogOf(c, room)[j].id == item.tag && item.resp == Some(Rebuild(LogOf(c, room)[j]))
  }

  ghost predicate RoomImports(c: Cluster, s: ServerId, r: Room) {
    forall k :: 0 <= k < |r.h.enqueued| && r.h.enqueued[k].item.tag.server != s ==>
      FromLog(c, s, r.id, r.h.enqueued[k].item)
  }

  ghost predicate ReadsOk(c: Cluster) {
    forall s, room :: s in c.servers ==> ReadOf(c, s, room) <= |LogOf(c, room)|
  }

  ghost predicate Imported(c: Cluster) {
    forall s, ref :: s in c.servers && ref in c.servers[s].heap ==> RoomImports(c, s, c.servers[s].heap[ref])
  }

  ghost predicate ClusterOk(c: Cluster) {
    Parts(c) && AllTagged(c) && AllHanded(c) && Logged(c) && ReadsOk(c) && Imported(c)
  }

  // ----------------------------------------------------- one server's own step

  /** A server has become t: ids, rooms and what has been handed over stay. */
  ghost predicate ServerGrows(s: Server, t: Server) {
    && t.id == s.id
    && (forall room :: room in s.rooms ==> room in t.rooms && t.rooms[room] == s.rooms[room])
    && (forall ref :: ref in s.heap ==> ref in t.heap && RoomGrows(s.heap[ref], t.heap[ref]))
  }

  ghost predicate RoomGrows(r: Room, t: Room) {
    t.id == r.id && forall qm :: HandedBy(r, qm) ==> HandedBy(t, qm)
  }

  lemma RoomGrowsByStep(r: Room, a: Action)
    requires Enabled(r, a) && Reached(r)
    ensures RoomGrows(r, Next(r, a))
  {
    ReachedKept(r, a);
    forall qm | HandedBy(r, qm) ensures HandedBy(Next(r, a), qm) { HandedKept(r, a, qm); }
  }

  lemma HandedOkGrows(s: Server, t: Server, handed: seq<Msg>)
    requires HandedOk(s, handed) && ServerGrows(s, t)
    ensures HandedOk(t, handed)
  {
    forall k | 0 <= k < |handed| ensures FromServer(t, handed[k]) { assert FromServer(s, handed[k]); }
  }

  /** Every room of the new server is as good as the old one's. */
  ghost predicate RoomsGood(c: Cluster, s: ServerId, t: Server) {
    forall ref :: ref in t.heap ==> Tagged(t.heap[ref]) && RoomImports(c, s, t.heap[ref])
  }

  lemma SameLogImports(c: Cluster, d: Cluster, s: ServerId, r: Room)
    requires RoomImports(c, s, r)
    requires forall room :: LogOf(c, room) <= LogOf(d, room)
    requires forall room :: ReadOf(c, s, room) <= ReadOf(d, s, room)
    ensures RoomImports(d, s, r)
  {
    forall k | 0 <= k < |r.h.enqueued| && r.h.enqueued[k].item.tag.server != s
      ensures FromLog(d, s, r.id, r.h.enqueued[k].item)
    {
      assert FromLog(c, s, r.id, r.h.enqueued[k].item);
    }
  }

  lemma WithServerParts(c: Cluster, s: ServerId, t: Server)
    requires Parts(c) && s in c.servers && ServerOk(t) && t.id == s
    ensures Parts(WithServer(c, s, t))
  {
    var d := WithServer(c, s, t);
    assert d.servers.Keys == c.servers.Keys;
    forall u | u in d.servers ensures d.servers[u].id == u && ServerOk(d.servers[u]) {
      if u != s { assert d.servers[u] == c.servers[u]; }
    }
  }

  lemma WithServerTagged(c: Cluster, s: ServerId, t: Server)
    requires AllTagged(c) && s in c.servers && RoomsGood(c, s, t)
    ensures AllTagged(WithServer(c, s, t))
  {}

  lemma WithServerHanded(c: Cluster, s: ServerId, t: Server)
    requires Parts(c) && AllHanded(c) && s in c.servers && ServerGrows(c.servers[s], t)
    ensures AllHanded(WithServer(c, s, t))
  {
    HandedOkGrows(c.servers[s], t, c.pipes[s].h.handed);
  }

  lemma WithServerImported(c: Cluster, s: ServerId, t: Server)
    requires ReadsOk(c) && Imported(c) && s in c.servers && RoomsGood(c, s, t)
    ensures ReadsOk(WithServer(c, s, t)) && Imported(WithServer(c, s, t))
  {
    var d := WithServer(c, s, t);
    forall u, room | u in d.servers ensures ReadOf(d, u, room) <= |LogOf(d, room)| {
      assert ReadOf(c, u, room) <= |LogOf(c, room)|;
    }
    forall u, ref | u in d.servers && ref in d.servers[u].heap ensures RoomImports(d, u, d.servers[u].heap[ref]) {
      SameLogImports(c, d, u, d.servers[u].heap[ref]);
    }
  }

  lemma WithServerOk(c: Cluster, s: ServerId, t: Server)
    requires ClusterOk(c) && s in c.servers && ServerOk(t) && ServerGrows(c.servers[s], t) && RoomsGood(c, s, t)
    ensures ClusterOk(WithServer(c, s, t))
  {
    WithServerParts(c, s, t);
    WithServerTagged(c, s, t);
    WithServerHanded(c, s, t);
    WithServerImported(c, s, t);
  }

  // ------------------------------------------------------- a step in one room

  lemma StepImports(c: Cluster, s: ServerId, r: Room, a: Action)
    requires RoomImports(c, s, r) && r.server == s && Enabled(r, a)
    requires a.Remote? ==> FromLog(c, s, r.id, a.item)
    ensures RoomImports(c, s, Next(r, a))
  {
    if !a.Remote? {
      StepsAddOwn(r, a);
      OwnStepImports(c, s, r, Next(r, a));
    }
  }

  lemma OwnStepImports(c: Cluster, s: ServerId, r: Room, t: Room)
    requires RoomImports(c, s, r) && r.server == s && AddsOwn(r, t) && t.id == r.id
    ensures RoomImports(c, s, t)
  {}

  lemma StepGood(c: Cluster, s: ServerId, r: Room, a: Action)
    requires Phases(r) && Tagged(r) && RoomImports(c, s, r) && r.server == s && Enabled(r, a)
    requires a.Remote? ==> Fresh(r, a.item) && FromLog(c, s, r.id, a.item)
    ensures Tagged(Next(r, a)) && RoomImports(c, s, Next(r, a))
  {
    TaggedKept(r, a);
    StepImports(c, s, r, a);
  }

  lemma OneRoomGood(c: Cluster, s: ServerId, t: Server, u: Server, ref: RoomRef)
    requires RoomsGood(c, s, t) && ref in u.heap && u.heap == t.heap[ref := u.heap[ref]]
    requires Tagged(u.heap[ref]) && RoomImports(c, s, u.heap[ref])
    ensures RoomsGood(c, s, u)
  {}

  lemma InRoomGood(c: Cluster, s: ServerId, ref: RoomRef, a: Action)
    requires Parts(c) && AllTagged(c) && Imported(c) && s in c.servers && ref in c.servers[s].heap
    requires Enabled(c.servers[s].heap[ref], a)
    requires a.Remote? ==> Fresh(c.servers[s].heap[ref], a.item) && FromLog(c, s, c.servers[s].heap[ref].id, a.item)
    ensures RoomsGood(c, s, InRoomAfter(c.servers[s], ref, a))
  {
    var r := c.servers[s].heap[ref];
    assert ServerOk(c.servers[s]) && c.servers[s].id == s;
    ReachedSafe(r);
    assert RoomsGood(c, s, c.servers[s]);
    StepGood(c, s, r, a);
    OneRoomGood(c, s, c.servers[s], InRoomAfter(c.servers[s], ref, a), ref);
  }

  lemma InRoomGrows(server: Server, ref: RoomRef, a: Action)
    requires ServerOk(server) && ref in server.heap && Enabled(server.heap[ref], a)
    ensures ServerGrows(server, InRoomAfter(server, ref, a))
  {
    RoomGrowsByStep(server.heap[ref], a);
  }

  lemma InRoomClusterOk(c: Cluster, s: ServerId, ref: RoomRef, a: Action)
    requires ClusterOk(c) && s in c.servers && ref in c.servers[s].heap && Enabled(c.servers[s].heap[ref], a)
    requires a.Remote? ==> Fresh(c.servers[s].heap[ref], a.item) && FromLog(c, s, c.servers[s].heap[ref].id, a.item)
    ensures ClusterOk(WithServer(c, s, InRoomAfter(c.servers[s], ref, a)))
  {
    InRoomOk(c.servers[s], ref, a);
    InRoomGrows(c.servers[s], ref, a);
    InRoomGood(c, s, ref, a);
    WithServerOk(c, s, InRoomAfter(c.servers[s], ref, a));
  }

  // ---------------------------------------------------------------- consuming

  /** The next message of a queue has not been enqueued here before. */
  lemma NextIsFresh(c: Cluster, s: ServerId, ref: RoomRef, room: RoomId)
    requires Parts(c) && Logged(c) && Unread(c, s, room) && ref in c.servers[s].heap
    requires c.servers[s].heap[ref].id == room && RoomImports(c, s, c.servers[s].heap[ref])
    requires LogOf(c, room)[ReadOf(c, s, room)].id.server != s
    ensures var qm := LogOf(c, room)[ReadOf(c, s, room)];
            Fresh(c.servers[s].heap[ref], Item(qm.id, Some(Rebuild(qm))))
  {
    var r := c.servers[s].heap[ref];
    var qm := LogOf(c, room)[ReadOf(c, s, room)];
    forall k | 0 <= k < |r.h.enqueued| ensures r.h.enqueued[k].item.tag != qm.id {
      if r.h.enqueued[k].item.tag.server != s { assert FromLog(c, s, room, r.h.enqueued[k].item); }
    }
  }

  lemma AdvanceImported(c: Cluster, s: ServerId, room: RoomId)
    requires ReadsOk(c) && Imported(c) && Unread(c, s, room)
    ensures ReadsOk(Advance(c, s, room)) && Imported(Advance(c, s, room))
  {
    var d := Advance(c, s, room);
    forall u, q | u in d.servers ensures ReadOf(d, u, q) <= |LogOf(d, q)| {
      assert ReadOf(c, u, q) <= |LogOf(c, q)|;
    }
    forall u, ref | u in d.servers && ref in d.servers[u].heap ensures RoomImports(d, u, d.servers[u].heap[ref]) {
      SameLogImports(c, d, u, d.servers[u].heap[ref]);
    }
  }

  /** Servers, pipes and log are unchanged. */
  lemma SameServersOk(c: Cluster, d: Cluster)
    requires Parts(c) && AllTagged(c) && AllHanded(c) && Logged(c)
    requires d.servers == c.servers && d.pipes == c.pipes && d.log == c.log
    ensures Parts(d) && AllTagged(d) && AllHanded(d) && Logged(d)
  {}

  lemma AdvanceOk(c: Cluster, s: ServerId, room: RoomId)
    requires ClusterOk(c) && Unread(c, s, room)
    ensures ClusterOk(Advance(c, s, room))
  {
    AdvanceImported(c, s, room);
    SameServersOk(c, Advance(c, s, room));
  }

  /** What the exchange holds carries its publisher's server id. */
  lemma LoggedServerId(c: Cluster, room: RoomId, k: nat)
    requires Parts(c) && AllHanded(c) && Logged(c) && k < |LogOf(c, room)|
    ensures var qm := LogOf(c, room)[k];
            && qm.serverId == qm.id.server && qm.id.server in c.servers
            && FromServer(c.servers[qm.id.server], qm)
  {
    var qm := c.log[room][k];
    var p := c.pipes[qm.id.server];
    assert PipeOk(p);
    AttemptedWasHanded(p, qm);
    var i :| 0 <= i < |p.h.handed| && p.h.handed[i] == qm;
    assert FromServer(c.servers[qm.id.server], p.h.handed[i]);
  }

  lemma ForwardOk(c: Cluster, s: ServerId, room: RoomId, ref: RoomRef)
    requires ClusterOk(c) && Unread(c, s, room) && ref in c.servers[s].heap && c.servers[s].heap[ref].id == room
    requires LogOf(c, room)[ReadOf(c, s, room)].id.server != s
    ensures var qm := LogOf(c, room)[ReadOf(c, s, room)];
      ClusterOk(WithServer(Advance(c, s, room), s,
                           InRoomAfter(c.servers[s], ref, Remote(Item(qm.id, Some(Rebuild(qm)))))))
  {
    var j := ReadOf(c, s, room);
    var qm := LogOf(c, room)[j];
    var d := Advance(c, s, room);
    AdvanceOk(c, s, room);
    assert RoomImports(c, s, c.servers[s].heap[ref]);
    NextIsFresh(c, s, ref, room);
    JustRead(c, s, room);
    InRoomClusterOk(d, s, ref, Remote(Item(qm.id, Some(Rebuild(qm)))));
  }

  lemma JustRead(c: Cluster, s: ServerId, room: RoomId)
    requires Unread(c, s, room)
    ensures var qm := LogOf(c, room)[ReadOf(c, s, room)];
            FromLog(Advance(c, s, room), s, room, Item(qm.id, Some(Rebuild(qm))))
  {
    var j := ReadOf(c, s, room);
    var d := Advance(c, s, room);
    assert LogOf(d, room)[j] == LogOf(c, room)[j] && j < ReadOf(d, s, room);
  }

  lemma HandlerRoom(server: Server, room: RoomId)
    requires RoomsOk(server) && room in server.handlers
    ensures server.handlers[room] in server.heap && server.heap[server.handlers[room]].id == room
  {}

  lemma ConsumeOk(c: Cluster, s: ServerId, room: RoomId)
    requires ClusterOk(c) && Unread(c, s, room)
    ensures ClusterOk(AfterConsume(c, s, room))
  {
    var j := ReadOf(c, s, room);
    LoggedServerId(c, room, j);
    if room in c.servers[s].handlers && LogOf(c, room)[j].serverId != s {
      HandlerRoom(c.servers[s], room);
      ForwardOk(c, s, room, c.servers[s].handlers[room]);
    } else {
      AdvanceOk(c, s, room);
    }
  }

  // --------------------------------------------------------------- publishing

  lemma WithPipeParts(c: Cluster, s: ServerId, p: Pipe)
    requires Parts(c) && s in c.pipes && PipeOk(p)
    ensures Parts(WithPipe(c, s, p))
  {}

  lemma WithPipeHanded(c: Cluster, s: ServerId, p: Pipe)
    requires AllTagged(c) && AllHanded(c) && s in c.servers && HandedOk(c.servers[s], p.h.handed)
    ensures AllTagged(WithPipe(c, s, p)) && AllHanded(WithPipe(c, s, p))
  {}

  lemma WithPipeLogged(c: Cluster, s: ServerId, p: Pipe)
    requires Logged(c) && s in c.pipes && forall qm :: qm in c.pipes[s].h.attempts ==> qm in p.h.attempts
    ensures Logged(WithPipe(c, s, p))
  {}

  lemma WithPipeOk(c: Cluster, s: ServerId, p: Pipe)
    requires ClusterOk(c) && s in c.pipes && PipeOk(p)
    requires HandedOk(c.servers[s], p.h.handed)
    requires forall qm :: qm in c.pipes[s].h.attempts ==> qm in p.h.attempts
    ensures ClusterOk(WithPipe(c, s, p))
  {
    WithPipeParts(c, s, p);
    WithPipeHanded(c, s, p);
    WithPipeLogged(c, s, p);
    ImportsSurvive(c, WithPipe(c, s, p));
  }

  lemma ImportsSurvive(c: Cluster, d: Cluster)
    requires ReadsOk(c) && Imported(c) && d.servers == c.servers && d.read == c.read
    requires forall room :: LogOf(c, room) <= LogOf(d, room)
    ensures ReadsOk(d) && Imported(d)
  {
    forall u, q | u in d.servers ensures ReadOf(d, u, q) <= |LogOf(d, q)| {
      assert ReadOf(c, u, q) <= |LogOf(c, q)|;
    }
    forall u, ref | u in d.servers && ref in d.servers[u].heap ensures RoomImports(d, u, d.servers[u].heap[ref]) {
      SameLogImports(c, d, u, d.servers[u].heap[ref]);
    }
  }

  lemma OutgoingIsHanded(r: Room, x: SessionId)
    requires Speeches(r) && Enabled(r, Handoff(x))
    ensures HandedBy(Next(r, Handoff(x)), r.sessions[x].phase.outgoing)
    ensures r.sessions[x].phase.outgoing.id.room == r.id && r.sessions[x].phase.outgoing.id.server == r.server
  {
    assert Speech(r, x);
  }

  lemma OutgoingIsNotHanded(r: Room, x: SessionId, qm: Msg)
    requires Speeches(r) && Enabled(r, Handoff(x))
    requires (qm.id.room == r.id && qm.id.server == r.server ==> HandedBy(r, qm))
    ensures qm.id != r.sessions[x].phase.outgoing.id
  {
    assert Speech(r, x);
  }

  /** A message about to be handed over has a new id. */
  lemma OutgoingIsNew(server: Server, handed: seq<Msg>, ref: RoomRef, x: SessionId)
    requires ServerOk(server) && HandedOk(server, handed) && ref in server.heap && Tagged(server.heap[ref])
    requires Enabled(server.heap[ref], Handoff(x))
    ensures var qm := server.heap[ref].sessions[x].phase.outgoing;
      HandedOk(InRoomAfter(server, ref, Handoff(x)), handed + [qm])
  {
    var qm := server.heap[ref].sessions[x].phase.outgoing;
    InRoomGrows(server, ref, Handoff(x));
    HandedOkGrows(server, InRoomAfter(server, ref, Handoff(x)), handed);
    OutgoingIsHanded(server.heap[ref], x);
    forall k | 0 <= k < |handed| ensures handed[k].id != qm.id {
      assert FromServer(server, handed[k]);
      OutgoingIsNotHanded(server.heap[ref], x, handed[k]);
    }
    assert server.rooms[server.heap[ref].id] == ref;
    HandedOkSnoc(InRoomAfter(server, ref, Handoff(x)), handed, qm);
  }

  lemma HandedOkSnoc(server: Server, handed: seq<Msg>, qm: Msg)
    requires HandedOk(server, handed) && FromServer(server, qm)
    requires forall k :: 0 <= k < |handed| ==> handed[k].id != qm.id
    ensures HandedOk(server, handed + [qm])
  {}

  lemma PublishOk(c: Cluster, s: ServerId, ref: RoomRef, x: SessionId, cancelled: bool)
    requires ClusterOk(c) && PublishEnabled(c, s, ref, x) && (!cancelled ==> HasRoom(c.pipes[s]))
    ensures ClusterOk(AfterPublish(c, s, ref, x, cancelled))
  {
    var qm := c.servers[s].heap[ref].sessions[x].phase.outgoing;
    var p := c.pipes[s];
    var a := if cancelled then HandCancelled(qm) else Hand(qm);
    var d := WithServer(c, s, InRoomAfter(c.servers[s], ref, Handoff(x)));
    InRoomClusterOk(c, s, ref, Handoff(x));
    OutgoingIsNew(c.servers[s], p.h.handed, ref, x);
    PipeStepOk(p, a);
    WithPipeOk(d, s, PipeNext(p, a));
  }

  lemma PipeStepOk(p: Pipe, a: PipeAction)
    requires PipeOk(p) && PipeEnabled(p, a)
    ensures PipeOk(PipeNext(p, a))
    ensures a.Hand? || a.HandCancelled? ==> PipeNext(p, a).h.handed == p.h.handed + [a.m]
    ensures !a.Hand? && !a.HandCancelled? ==> PipeNext(p, a).h.handed == p.h.handed
    ensures p.h.attempts <= PipeNext(p, a).h.attempts
    ensures a.Attempt? ==> PipeNext(p, a).h.attempts == p.h.attempts + [p.workers[a.w].msg]
  {
    ConservedKept(p, a);
    AttemptsOkKept(p, a);
    AccountedKept(p, a);
  }

  // -------------------------------------------------------------- in the pipe

  lemma {:induction false} DistinctOnce(ms: seq<Msg>, qm: Msg)
    requires DistinctIds(ms)
    ensures Copies(ms, qm) <= 1
  {
    if ms != [] {
      assert ms == [ms[0]] + ms[1..];
      DistinctOnce(ms[1..], qm);
    }
  }

  lemma {:induction false} BusyInHands(ws: seq<Worker>, w: nat)
    requires w < |ws| && ws[w].Busy?
    ensures InHands(ws, ws[w].msg) > 0
  {
    if w < |ws| - 1 { BusyInHands(ws[..|ws| - 1], w); }
  }

  lemma AttemptedWasHanded(p: Pipe, m: Msg)
    requires PipeOk(p) && m in p.h.attempts
    ensures Copies(p.h.handed, m) >= InFlight(p, m) + 1 && m in p.h.handed
  {
    assert Copies(p.h.attempts, m) == Copies(p.h.published, m) + Copies(p.h.failed, m);
    assert Copies(p.h.handed, m) == InFlight(p, m) + Ended(p, m);
  }

  lemma BusyWasHanded(p: Pipe, w: nat)
    requires PipeOk(p) && BusyAt(p, w)
    ensures InFlight(p, p.workers[w].msg) > 0 && p.workers[w].msg in p.h.handed
  {
    var m := p.workers[w].msg;
    BusyInHands(p.workers, w);
    assert Copies(p.h.handed, m) == InFlight(p, m) + Ended(p, m);
  }

  /** Messages handed over under one id are one message. */
  lemma SameIdSameMessage(server: Server, handed: seq<Msg>, a: Msg, b: Msg)
    requires HandedOk(server, handed) && a in handed && b in handed && a.id == b.id
    ensures a == b && Copies(handed, a) <= 1
  {
    DistinctOnce(handed, a);
  }

  /** A message in a worker's hand is not yet in the exchange. */
  lemma InHandIsNotLogged(c: Cluster, s: ServerId, w: nat, k: nat)
    requires Parts(c) && AllHanded(c) && Logged(c) && s in c.pipes && BusyAt(c.pipes[s], w)
    ensures var qm := c.pipes[s].workers[w].msg;
      FromServer(c.servers[s], qm) && (k < |LogOf(c, qm.roomId)| ==> LogOf(c, qm.roomId)[k].id != qm.id)
  {
    var p := c.pipes[s];
    var qm := p.workers[w].msg;
    BusyWasHanded(p, w);
    var j :| 0 <= j < |p.h.handed| && p.h.handed[j] == qm;
    assert FromServer(c.servers[s], p.h.handed[j]);
    if k < |LogOf(c, qm.roomId)| && LogOf(c, qm.roomId)[k].id == qm.id {
      var other := c.log[qm.roomId][k];
      AttemptedWasHanded(p, other);
      SameIdSameMessage(c.servers[s], p.h.handed, other, qm);
    }
  }

  lemma AppendLogged(c: Cluster, qm: Msg)
    requires Logged(c) && qm.id.server in c.pipes && qm in c.pipes[qm.id.server].h.attempts && qm.id.room == qm.roomId
    requires forall k :: 0 <= k < |LogOf(c, qm.roomId)| ==> LogOf(c, qm.roomId)[k].id != qm.id
    ensures Logged(Append(c, qm))
  {}

  lemma AppendOk(c: Cluster, qm: Msg)
    requires ClusterOk(c) && Logged(Append(c, qm))
    ensures ClusterOk(Append(c, qm))
  {
    ImportsSurvive(c, Append(c, qm));
    SameButLog(c, Append(c, qm));
  }

  lemma SameButLog(c: Cluster, d: Cluster)
    requires Parts(c) && AllTagged(c) && AllHanded(c) && d.servers == c.servers && d.pipes == c.pipes
    ensures Parts(d) && AllTagged(d) && AllHanded(d)
  {}

  /** The exchange stays as it should with a message a worker attempted. */
  lemma AttemptLogged(c: Cluster, s: ServerId, w: nat, p: Pipe)
    requires Parts(c) && AllHanded(c) && Logged(c) && s in c.pipes && BusyAt(c.pipes[s], w)
    requires p.h.attempts == c.pipes[s].h.attempts + [c.pipes[s].workers[w].msg]
    ensures Logged(Append(WithPipe(c, s, p), c.pipes[s].workers[w].msg))
  {
    var qm := c.pipes[s].workers[w].msg;
    WithPipeLogged(c, s, p);
    forall k | 0 <= k < |LogOf(c, qm.roomId)| ensures LogOf(c, qm.roomId)[k].id != qm.id {
      InHandIsNotLogged(c, s, w, k);
    }
    InHandIsNotLogged(c, s, w, 0);
    assert qm in p.h.attempts;
    AppendLogged(WithPipe(c, s, p), qm);
  }

  lemma InPipeOk(c: Cluster, s: ServerId, pact: PipeAction, delivered: bool)
    requires ClusterOk(c) && s in c.pipes && PipeEnabled(c.pipes[s], pact) && !pact.Hand? && !pact.HandCancelled?
    ensures ClusterOk(AfterInPipe(c, s, pact, delivered))
  {
    var p := PipeNext(c.pipes[s], pact);
    var d := WithPipe(c, s, p);
    PipeStepOk(c.pipes[s], pact);
    assert HandedOk(c.servers[s], p.h.handed);
    WithPipeOk(c, s, p);
    if pact.Attempt? && delivered { DeliveredOk(c, s, pact.w, p); }
  }

  lemma DeliveredOk(c: Cluster, s: ServerId, w: nat, p: Pipe)
    requires ClusterOk(c) && s in c.pipes && BusyAt(c.pipes[s], w) && ClusterOk(WithPipe(c, s, p))
    requires p.h.attempts == c.pipes[s].h.attempts + [c.pipes[s].workers[w].msg]
    ensures ClusterOk(Append(WithPipe(c, s, p), c.pipes[s].workers[w].msg))
  {
    AttemptLogged(c, s, w, p);
    AppendOk(WithPipe(c, s, p), c.pipes[s].workers[w].msg);
  }

  // ----------------------------------------------------------- server by itself

  lemma CreateGrows(s: Server, roomId: RoomId, ref: RoomRef)
    requires RoomsOk(s) && ref !in s.heap
    ensures ServerGrows(s, AfterCreate(s, roomId, ref))
  {}

  lemma NewRoomGood(c: Cluster, s: ServerId, id: RoomId, cap: nat)
    ensures Tagged(NewRoom(s, id, cap)) && RoomImports(c, s, NewRoom(s, id, cap))
  {}

  lemma CreateGood(c: Cluster, s: ServerId, roomId: RoomId, ref: RoomRef)
    requires Parts(c) && AllTagged(c) && Imported(c) && s in c.servers && ref !in c.servers[s].heap
    ensures RoomsGood(c, s, AfterCreate(c.servers[s], roomId, ref))
  {
    NewRoomGood(c, s, roomId, c.servers[s].cap);
  }

  lemma SameHeapOk(c: Cluster, s: ServerId, t: Server)
    requires ClusterOk(c) && s in c.servers && ServerOk(t)
    requires t.id == s && t.heap == c.servers[s].heap && t.rooms == c.servers[s].rooms
    ensures ClusterOk(WithServer(c, s, t))
  {
    SameHeapGrows(c.servers[s], t);
    SameHeapGood(c, s, t);
    WithServerOk(c, s, t);
  }

  lemma SameHeapGrows(s: Server, t: Server)
    requires t.id == s.id && t.heap == s.heap && t.rooms == s.rooms
    ensures ServerGrows(s, t)
  {}

  lemma SameHeapGood(c: Cluster, s: ServerId, t: Server)
    requires AllTagged(c) && Imported(c) && s in c.servers && t.heap == c.servers[s].heap
    ensures RoomsGood(c, s, t)
  {}

  lemma JoinOk(c: Cluster, s: ServerId, j: nat, x: SessionId)
    requires ClusterOk(c) && s in c.servers && ServerEnabled(c.servers[s], Join(j, x))
    requires ServerOk(ServerNext(c.servers[s], Join(j, x)))
    ensures ClusterOk(WithServer(c, s, ServerNext(c.servers[s], Join(j, x))))
  {
    var r := c.servers[s].arrivals[j];
    var joined := InRoomAfter(c.servers[s], r.ref, Enter(x, r.join));
    InRoomClusterOk(c, s, r.ref, Enter(x, r.join));
    SameHeapOk(WithServer(c, s, joined), s, ServerNext(c.servers[s], Join(j, x)));
    TwiceWithServer(c, s, joined, ServerNext(c.servers[s], Join(j, x)));
  }

  lemma CreateClusterOk(c: Cluster, s: ServerId, j: nat, ref: RoomRef)
    requires ClusterOk(c) && s in c.servers && ServerEnabled(c.servers[s], Create(j, ref))
    requires ServerOk(ServerNext(c.servers[s], Create(j, ref)))
    ensures ClusterOk(WithServer(c, s, ServerNext(c.servers[s], Create(j, ref))))
  {
    var roomId := c.servers[s].arrivals[j].roomId;
    CreateGrows(c.servers[s], roomId, ref);
    CreateGood(c, s, roomId, ref);
    WithServerOk(c, s, ServerNext(c.servers[s], Create(j, ref)));
  }

  lemma LookingOk(c: Cluster, s: ServerId, act: ServerAction)
    requires ClusterOk(c) && s in c.servers && ServerEnabled(c.servers[s], act)
    requires ServerOk(ServerNext(c.servers[s], act))
    requires act.Arrive? || act.Lookup? || act.Relookup?
    ensures ClusterOk(WithServer(c, s, ServerNext(c.servers[s], act)))
  {
    SameHeapOk(c, s, ServerNext(c.servers[s], act));
  }

  lemma LocalOk(c: Cluster, s: ServerId, act: ServerAction)
    requires ClusterOk(c) && s in c.servers && ServerEnabled(c.servers[s], act)
    requires act.InRoom? ==> !act.act.Handoff? && !act.act.Remote?
    ensures ClusterOk(WithServer(c, s, ServerNext(c.servers[s], act)))
  {
    var server := c.servers[s];
    ServerOkKept(server, act);
    if act.InRoom? {
      InRoomClusterOk(c, s, act.ref, act.act);
    } else if act.Join? {
      JoinOk(c, s, act.j, act.x);
    } else if act.Create? {
      CreateClusterOk(c, s, act.j, act.ref);
    } else {
      LookingOk(c, s, act);
    }
  }

  lemma TwiceWithServer(c: Cluster, s: ServerId, t: Server, u: Server)
    ensures WithServer(WithServer(c, s, t), s, u) == WithServer(c, s, u)
  {}

  // ---------------------------------------------------------------- every run

  lemma DownstreamOk(c: Cluster, a: ClusterAction)
    requires ClusterOk(c) && ClusterEnabled(c, a) && Downstream(a)
    ensures ClusterOk(ClusterNext(c, a))
  {
    if a.InPipe? {
      InPipeOk(c, a.s, a.pact, a.delivered);
    } else if a.Consume? {
      ConsumeOk(c, a.s, a.room);
    } else {
      AdvanceOk(c, a.s, a.room);
    }
  }

  lemma ClusterOkKept(c: Cluster, a: ClusterAction)
    requires ClusterOk(c) && ClusterEnabled(c, a)
    ensures ClusterOk(ClusterNext(c, a))
  {
    if Downstream(a) {
      DownstreamOk(c, a);
    } else if a.Local? {
      LocalOk(c, a.s, a.act);
    } else {
      PublishOk(c, a.s, a.ref, a.x, a.PublishCancelled?);
    }
  }

  lemma {:induction false} ClusterOkAlways(c: Cluster, acts: seq<ClusterAction>, t: Cluster)
    requires ClusterOk(c) && ClusterRun(c, acts, t)
    ensures ClusterOk(t)
    decreases |acts|
  {
    if acts != [] {
      ClusterOkKept(c, acts[0]);
      ClusterOkAlways(ClusterNext(c, acts[0]), acts[1..], t);
    }
  }

  lemma StartOk(c: Cluster)
    requires ClusterStart(c)
    ensures ClusterOk(c)
  {
    StartParts(c);
    StartEmpty(c);
  }

  lemma StartParts(c: Cluster)
    requires ClusterStart(c)
    ensures Parts(c)
  {
    forall s | s in c.pipes ensures PipeOk(c.pipes[s]) {
      var p := c.pipes[s];
      NewPipeOk(p.chanCap, p.tempCap, |p.workers|);
    }
    forall s | s in c.servers ensures ServerOk(c.servers[s]) {
      NewServerOk(s, c.servers[s].cap, c.servers[s].bound);
    }
  }

  lemma StartEmpty(c: Cluster)
    requires ClusterStart(c)
    ensures AllTagged(c) && AllHanded(c) && Logged(c) && ReadsOk(c) && Imported(c)
  {
    assert forall s :: s in c.servers ==> c.servers[s].heap == map[];
    assert forall s :: s in c.pipes && s in c.servers ==> c.pipes[s].h.handed == [];
  }

  lemma NewServerOk(s: ServerId, cap: nat, bound: set<RoomId>)
    ensures ServerOk(NewServer(s, cap, bound))
  {
    assert ServerRun(NewServer(s, cap, bound), [], NewServer(s, cap, bound));
    ServerOkFromStart(s, cap, bound, [], NewServer(s, cap, bound));
  }
}
