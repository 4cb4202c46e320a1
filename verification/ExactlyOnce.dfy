/** From end to end: what a session says is, once nothing is under way and
    nothing was lost, enqueued exactly once on every server that has the room. */
module ExactlyOnce {
  import opened Basics
  import opened Models
  import opened RoomProtocol
  import opened RoomEvolution
  import opened RoomTags
  import opened ChatServer
  import opened Pipeline
  import opened Cluster
  import opened ClusterLedger
  import opened Delivery
  import opened Sizing
  import opened RoomChanges

  // ------------------------------------------- what is said is handed over

  function TagOf(r: Room, x: SessionId, k: nat): Tag { Tag(r.server, r.id, x, k) }

  predicate InPublish(r: Room, tag: Tag) {
    && tag.session in r.sessions
    && var p := r.sessions[tag.session].phase;
       p.Publishing? && p.outgoing.id == tag
  }

  ghost predicate HasTag(ms: seq<Msg>, tag: Tag) { exists i :: 0 <= i < |ms| && ms[i].id == tag }

  /** Everything a session of the room said has been handed to Publish, but for
      what it is handing over now. */
  ghost predicate NothingWithheld(r: Room, handed: seq<Msg>) {
    forall x, k :: x in r.sessions && 0 <= k < |r.sessions[x].h.said| ==>
      InPublish(r, TagOf(r, x, k)) || HasTag(handed, TagOf(r, x, k))
  }

  lemma HasTagGrows(ms: seq<Msg>, more: seq<Msg>, tag: Tag)
    requires HasTag(ms, tag) && ms <= more
    ensures HasTag(more, tag)
  {
    var i :| 0 <= i < |ms| && ms[i].id == tag;
    assert more[i].id == tag;
  }

  lemma StillNothingWithheld(r: Room, handed: seq<Msg>, more: seq<Msg>)
    requires NothingWithheld(r, handed) && handed <= more
    ensures NothingWithheld(r, more)
  {
    forall x, k | x in r.sessions && 0 <= k < |r.sessions[x].h.said|
      ensures InPublish(r, TagOf(r, x, k)) || HasTag(more, TagOf(r, x, k))
    {
      if !InPublish(r, TagOf(r, x, k)) { HasTagGrows(handed, more, TagOf(r, x, k)); }
    }
  }

  /** Nobody says anything or leaves Publish. */
  ghost predicate SamePublishing(r: Room, t: Room) {
    && t.server == r.server && t.id == r.id
    && forall x :: x in t.sessions ==>
         if x in r.sessions then
           && t.sessions[x].h.said == r.sessions[x].h.said
           && (r.sessions[x].phase.Publishing? ==> t.sessions[x].phase == r.sessions[x].phase)
         else t.sessions[x].h.said == []
  }

  lemma SamePublishingWithholdsNothing(r: Room, t: Room, handed: seq<Msg>)
    requires NothingWithheld(r, handed) && SamePublishing(r, t)
    ensures NothingWithheld(t, handed)
  {
    forall x, k | x in t.sessions && 0 <= k < |t.sessions[x].h.said|
      ensures InPublish(t, TagOf(t, x, k)) || HasTag(handed, TagOf(t, x, k))
    {
      assert TagOf(t, x, k) == TagOf(r, x, k);
      assert InPublish(r, TagOf(r, x, k)) || HasTag(handed, TagOf(r, x, k));
    }
  }

  lemma OnePublishing(r: Room, t: Room, x: SessionId)
    requires t.server == r.server && t.id == r.id && x in r.sessions && x in t.sessions
    requires t.sessions == r.sessions[x := t.sessions[x]] && t.sessions[x].h.said == r.sessions[x].h.said
    requires t.sessions[x].phase == r.sessions[x].phase || !r.sessions[x].phase.Publishing?
    ensures SamePublishing(r, t)
  {}

  lemma WriterPublishing(r: Room, a: Action)
    requires Enabled(r, a) && OfWriter(a)
    ensures SamePublishing(r, Next(r, a))
  {
    WriterShape(r, a);
    OnePublishing(r, Next(r, a), a.x);
  }

  lemma EvictPublishing(r: Room, u: UserId)
    requires u in r.users && r.users[u] in r.sessions
    ensures SamePublishing(r, Evict(r, u))
  {
    OnePublishing(r, Evict(r, u), r.users[u]);
  }

  lemma RemoveDirectPublishing(r: Room, x: SessionId)
    requires At(r, x, FallingBack)
    ensures SamePublishing(r, AfterRemoveDirect(r, x))
  {
    var u := r.sessions[x].user;
    if u in r.users && r.users[u] in r.sessions {
      EvictPublishing(r, u);
    } else {
      OnePublishing(r, AfterRemoveDirect(r, x), x);
    }
  }

  lemma LoopPublishing(r: Room, a: Action)
    requires Enabled(r, a) && OfLoop(a)
    ensures SamePublishing(r, Next(r, a))
  {
    if a.FanOne? {
      FanOnePublishing(r, a.u);
    } else if a.CloseOne? {
      CloseOnePublishing(r, a.u);
    } else if a.Process? {
      ProcessPublishing(r);
    }
  }

  lemma FanOnePublishing(r: Room, u: UserId)
    requires r.loop.Fanning?
    ensures SamePublishing(r, AfterFanOne(r, u))
  {
    if u in r.users && r.users[u] in r.sessions && !r.sessions[r.users[u]].closed {
      OnePublishing(r, AfterFanOne(r, u), r.users[u]);
    }
  }

  lemma CloseOnePublishing(r: Room, u: UserId)
    requires r.loop.Closing?
    ensures SamePublishing(r, AfterCloseOne(r, u))
  {
    if u in r.users && r.users[u] in r.sessions { OnePublishing(r, AfterCloseOne(r, u), r.users[u]); }
  }

  lemma ProcessPublishing(r: Room)
    requires r.loop.Holding?
    ensures SamePublishing(r, AfterProcess(r))
  {
    var u := r.loop.event.removeUserId;
    if Removal(r.loop.event) && u in r.users && r.users[u] in r.sessions { EvictPublishing(r, u); }
  }

  lemma HandlerPublishing(r: Room, a: Action)
    requires Enabled(r, a) && (a.Indexed? || a.Schedule? || a.Unindexed? || a.Depart?)
    ensures SamePublishing(r, Next(r, a))
  {
    OnePublishing(r, Next(r, a), a.x);
  }

  lemma QuietPublishing(r: Room, a: Action)
    requires Enabled(r, a) && !a.Greet? && !a.Hear? && !a.Handoff?
    ensures SamePublishing(r, Next(r, a))
  {
    if OfWriter(a) {
      WriterPublishing(r, a);
    } else if OfLoop(a) {
      LoopPublishing(r, a);
    } else if a.RemoveDirect? {
      RemoveDirectPublishing(r, a.x);
    } else if a.Indexed? || a.Schedule? || a.Unindexed? || a.Depart? {
      HandlerPublishing(r, a);
    }
  }

  lemma SayWithholdsNothing(r: Room, x: SessionId, m: Message, leaving: bool, created: string, stamped: string,
                            handed: seq<Msg>)
    requires NothingWithheld(r, handed) && x in r.sessions && !r.sessions[x].phase.Publishing?
    ensures NothingWithheld(Say(r, x, m, leaving, created, stamped), handed)
  {
    var t := Say(r, x, m, leaving, created, stamped);
    SpeakingShape(r, x, m, leaving, created, stamped);
    forall y, k | y in t.sessions && 0 <= k < |t.sessions[y].h.said|
      ensures InPublish(t, TagOf(t, y, k)) || HasTag(handed, TagOf(t, y, k))
    {
      assert TagOf(t, y, k) == TagOf(r, y, k);
      if y != x || k < |r.sessions[x].h.said| {
        assert InPublish(r, TagOf(r, y, k)) || HasTag(handed, TagOf(r, y, k));
      }
    }
  }

  lemma HearWithholdsNothing(r: Room, x: SessionId, input: Input, created: string, stamped: string, handed: seq<Msg>)
    requires NothingWithheld(r, handed) && At(r, x, Reading)
    ensures NothingWithheld(AfterHear(r, x, input, created, stamped), handed)
  {
    match Reaction(r.sessions[x], input)
    case None =>
    case Some((m, leaving)) =>
      if leaving {
        SayWithholdsNothing(r, x, m, leaving, created, stamped, handed);
      } else {
        OnePublishing(r, CountText(r, x), x);
        SamePublishingWithholdsNothing(r, CountText(r, x), handed);
        SayWithholdsNothing(CountText(r, x), x, m, leaving, created, stamped, handed);
      }
  }

  lemma StepWithholdsNothing(r: Room, a: Action, handed: seq<Msg>)
    requires NothingWithheld(r, handed) && Enabled(r, a) && !a.Handoff?
    ensures NothingWithheld(Next(r, a), handed)
  {
    if a.Greet? {
      SayWithholdsNothing(r, a.x, r.sessions[a.x].join, false, a.created, a.stamped, handed);
    } else if a.Hear? {
      HearWithholdsNothing(r, a.x, a.input, a.created, a.stamped, handed);
    } else {
      QuietPublishing(r, a);
      SamePublishingWithholdsNothing(r, Next(r, a), handed);
    }
  }

  lemma HandoffWithholdsNothing(r: Room, x: SessionId, handed: seq<Msg>)
    requires NothingWithheld(r, handed) && Enabled(r, Handoff(x))
    ensures NothingWithheld(Next(r, Handoff(x)), handed + [r.sessions[x].phase.outgoing])
  {
    var t, more := Next(r, Handoff(x)), handed + [r.sessions[x].phase.outgoing];
    assert more[|handed|] == r.sessions[x].phase.outgoing;
    forall y, k | y in t.sessions && 0 <= k < |t.sessions[y].h.said|
      ensures InPublish(t, TagOf(t, y, k)) || HasTag(more, TagOf(t, y, k))
    {
      var tag := TagOf(r, y, k);
      assert TagOf(t, y, k) == tag;
      assert InPublish(r, tag) || HasTag(handed, tag);
      if HasTag(handed, tag) { HasTagGrows(handed, more, tag); }
    }
  }

  // ------------------------------------------------------- over a whole cluster

  /** What a step puts into the record of what has been handed over. */
  function HandedBy'(c: Cluster, a: ClusterAction, s: ServerId): seq<Msg>
    requires ClusterEnabled(c, a)
  {
    if (a.Publish? || a.PublishCancelled?) && a.s == s then [c.servers[s].heap[a.ref].sessions[a.x].phase.outgoing]
    else []
  }

  lemma HandedGrows(c: Cluster, a: ClusterAction, s: ServerId)
    requires ClusterEnabled(c, a) && s in c.pipes
    ensures s in ClusterNext(c, a).pipes
    ensures ClusterNext(c, a).pipes[s].h.handed == c.pipes[s].h.handed + HandedBy'(c, a, s)
  {
    if a.InPipe? && a.s == s { InPipeHandsNothing(c.pipes[s], a.pact); }
  }

  lemma InPipeHandsNothing(p: Pipe, pact: PipeAction)
    requires PipeEnabled(p, pact) && !pact.Hand? && !pact.HandCancelled?
    ensures PipeNext(p, pact).h.handed == p.h.handed
  {}

  ghost predicate AllHandedOver(c: Cluster) {
    && c.pipes.Keys == c.servers.Keys
    && forall s, ref :: s in c.servers && ref in c.servers[s].heap ==>
         NothingWithheld(c.servers[s].heap[ref], c.pipes[s].h.handed)
  }

  lemma RoomHandedOver(c: Cluster, a: ClusterAction, s: ServerId, ref: RoomRef)
    requires AllHandedOver(c) && ClusterEnabled(c, a)
    requires s in ClusterNext(c, a).servers && ref in ClusterNext(c, a).servers[s].heap && s in ClusterNext(c, a).pipes
    ensures NothingWithheld(ClusterNext(c, a).servers[s].heap[ref], ClusterNext(c, a).pipes[s].h.handed)
  {
    var ch := ChangeOf(c, a, s, ref);
    HandedGrows(c, a, s);
    var handed := c.pipes[s].h.handed;
    match ch
    case Born =>
    case Unchanged => StillNothingWithheld(c.servers[s].heap[ref], handed, handed + HandedBy'(c, a, s));
    case Moved(act) =>
      if act.Handoff? {
        HandoffWithholdsNothing(c.servers[s].heap[ref], act.x, handed);
      } else {
        StepWithholdsNothing(c.servers[s].heap[ref], act, handed);
        StillNothingWithheld(Next(c.servers[s].heap[ref], act), handed, handed + HandedBy'(c, a, s));
      }
  }

  lemma SameMembers(c: Cluster, a: ClusterAction)
    requires ClusterEnabled(c, a) && c.pipes.Keys == c.servers.Keys
    ensures ClusterNext(c, a).pipes.Keys == ClusterNext(c, a).servers.Keys == c.servers.Keys
  {}

  lemma HandedOverKept(c: Cluster, a: ClusterAction)
    requires AllHandedOver(c) && ClusterEnabled(c, a)
    ensures AllHandedOver(ClusterNext(c, a))
  {
    var d := ClusterNext(c, a);
    SameMembers(c, a);
    forall s, ref | s in d.servers && ref in d.servers[s].heap
      ensures NothingWithheld(d.servers[s].heap[ref], d.pipes[s].h.handed)
    {
      RoomHandedOver(c, a, s, ref);
    }
  }

  lemma HandedOverAlways(start: Cluster, acts: seq<ClusterAction>, c: Cluster)
    requires ClusterStart(start) && ClusterRun(start, acts, c)
    ensures AllHandedOver(c)
  {
    forall e, a | AllHandedOver(e) && ClusterEnabled(e, a) ensures AllHandedOver(ClusterNext(e, a)) {
      HandedOverKept(e, a);
    }
    RunKeeps(start, acts, c, e => AllHandedOver(e), a => true);
  }

  // -------------------------------------------- what is published is logged

  /** The broker keeps its word: a publish it confirms reaches the exchange. */
  predicate Truthful(a: ClusterAction) { a.InPipe? && a.pact.Attempt? && a.pact.ok ==> a.delivered }

  ghost predicate PublishedIsLogged(c: Cluster) {
    forall s, m :: s in c.pipes && m in c.pipes[s].h.published ==> m in LogOf(c, m.roomId)
  }

  lemma LogGrows(c: Cluster, a: ClusterAction, room: RoomId)
    requires ClusterEnabled(c, a)
    ensures LogOf(c, room) <= LogOf(ClusterNext(c, a), room)
  {}

  /** What a step adds to the record of what was published is in the log after it. */
  lemma PublishedGrows(c: Cluster, a: ClusterAction, s: ServerId, m: Msg)
    requires ClusterEnabled(c, a) && Truthful(a) && s in ClusterNext(c, a).pipes
    requires m in ClusterNext(c, a).pipes[s].h.published
    ensures s in c.pipes && (m in c.pipes[s].h.published || m in LogOf(ClusterNext(c, a), m.roomId))
  {
    if a.InPipe? && a.s == s { AttemptPublishes(c, s, a.pact, a.delivered, m); }
  }

  lemma AttemptPublishes(c: Cluster, s: ServerId, pact: PipeAction, delivered: bool, m: Msg)
    requires s in c.pipes && PipeEnabled(c.pipes[s], pact) && (pact.Attempt? && pact.ok ==> delivered)
    requires m in PipeNext(c.pipes[s], pact).h.published
    ensures m in c.pipes[s].h.published || m in LogOf(AfterInPipe(c, s, pact, delivered), m.roomId)
  {
    if m !in c.pipes[s].h.published {
      assert pact.Attempt? && pact.ok && m == c.pipes[s].workers[pact.w].msg;
      InTheLog(WithPipe(c, s, PipeNext(c.pipes[s], pact)), m);
    }
  }

  lemma InTheLog(c: Cluster, m: Msg)
    ensures m in LogOf(Append(c, m), m.roomId)
  {
    assert LogOf(Append(c, m), m.roomId)[|LogOf(c, m.roomId)|] == m;
  }

  lemma PublishedKept(c: Cluster, a: ClusterAction)
    requires PublishedIsLogged(c) && ClusterEnabled(c, a) && Truthful(a)
    ensures PublishedIsLogged(ClusterNext(c, a))
  {
    var d := ClusterNext(c, a);
    forall s, m | s in d.pipes && m in d.pipes[s].h.published ensures m in LogOf(d, m.roomId) {
      PublishedGrows(c, a, s, m);
      LogGrows(c, a, m.roomId);
    }
  }

  lemma PublishedAlways(start: Cluster, acts: seq<ClusterAction>, c: Cluster)
    requires ClusterStart(start) && ClusterRun(start, acts, c) && forall i :: 0 <= i < |acts| ==> Truthful(acts[i])
    ensures PublishedIsLogged(c)
  {
    forall e, a | PublishedIsLogged(e) && ClusterEnabled(e, a) && Truthful(a)
      ensures PublishedIsLogged(ClusterNext(e, a))
    {
      PublishedKept(e, a);
    }
    RunKeeps(start, acts, c, e => PublishedIsLogged(e), a => Truthful(a));
  }

  // ------------------------------------------------ what is logged is enqueued

  ghost function RoomAt(c: Cluster, t: ServerId, room: RoomId): Option<Room> {
    if t in c.servers && room in c.servers[t].rooms && c.servers[t].rooms[room] in c.servers[t].heap
    then Some(c.servers[t].heap[c.servers[t].rooms[room]]) else None
  }

  ghost function EnqueuedAt(c: Cluster, t: ServerId, room: RoomId): seq<RoomEvent> {
    if RoomAt(c, t, room).Some? then RoomAt(c, t, room).value.h.enqueued else []
  }

  ghost function LostAt(c: Cluster, t: ServerId, room: RoomId): nat {
    if RoomAt(c, t, room).Some? then RoomAt(c, t, room).value.h.lostRemote else 0
  }

  ghost predicate Has(es: seq<RoomEvent>, tag: Tag) { exists i :: 0 <= i < |es| && es[i].item.tag == tag }

  lemma HasGrows(es: seq<RoomEvent>, more: seq<RoomEvent>, tag: Tag)
    requires Has(es, tag) && es <= more
    ensures Has(more, tag)
  {
    var i :| 0 <= i < |es| && es[i].item.tag == tag;
    assert more[i].item.tag == tag;
  }

  /** Positions of foreign messages that t's queue has delivered and its room
      has not enqueued. */
  ghost function Missing(c: Cluster, t: ServerId, room: RoomId): set<nat> {
    set j: nat | j < ReadOf(c, t, room) && j < |LogOf(c, room)| && LogOf(c, room)[j].id.server != t
                 && !Has(EnqueuedAt(c, t, room), LogOf(c, room)[j].id)
  }

  /** Events are never taken back, nor losses. */
  lemma RoomOnlyGrows(r: Room, a: Action)
    requires Enabled(r, a)
    ensures r.h.enqueued <= Next(r, a).h.enqueued && r.h.lostRemote <= Next(r, a).h.lostRemote
  {
    if !a.Remote? {
      StepsAddOwn(r, a);
      if Speaks(a) { SpeakerLosesNothing(r, a); } else { OthersPushNothing(r, a); }
    }
  }

  lemma EnqueuedGrows(c: Cluster, a: ClusterAction, t: ServerId, room: RoomId)
    requires Parts(c) && ClusterEnabled(c, a)
    ensures EnqueuedAt(c, t, room) <= EnqueuedAt(ClusterNext(c, a), t, room)
    ensures LostAt(c, t, room) <= LostAt(ClusterNext(c, a), t, room)
  {
    if RoomAt(c, t, room).Some? {
      var ref := c.servers[t].rooms[room];
      ClusterStepEvolves(c, a);
      assert ServerEvolves(c.servers[t], ClusterNext(c, a).servers[t]);
      var ch := ChangeOf(c, a, t, ref);
      if ch.Moved? { RoomOnlyGrows(c.servers[t].heap[ref], ch.act); }
    }
  }

  /** The next copy from a queue, if a takes one, is all that can newly miss. */
  lemma MissingGrows(c: Cluster, d: Cluster, t: ServerId, room: RoomId, taken: bool)
    requires ReadOf(d, t, room) == ReadOf(c, t, room) + (if taken then 1 else 0)
    requires ReadOf(c, t, room) <= |LogOf(c, room)| && LogOf(c, room) <= LogOf(d, room)
    requires EnqueuedAt(c, t, room) <= EnqueuedAt(d, t, room)
    ensures Missing(d, t, room) <= Missing(c, t, room) + if taken then {ReadOf(c, t, room)} else {}
  {
    forall j | j in Missing(d, t, room) && j != ReadOf(c, t, room) ensures j in Missing(c, t, room) {
      assert LogOf(d, room)[j] == LogOf(c, room)[j];
      if Has(EnqueuedAt(c, t, room), LogOf(c, room)[j].id) {
        HasGrows(EnqueuedAt(c, t, room), EnqueuedAt(d, t, room), LogOf(c, room)[j].id);
      }
    }
  }

  lemma SubsetCount(a: set<nat>, b: set<nat>)
    requires a <= b
    ensures |a| <= |b|
  {
    assert b == a + (b - a);
  }

  /** What is missing beyond what the room itself lost. */
  ghost function Unexplained(c: Cluster, t: ServerId, room: RoomId): int { |Missing(c, t, room)| - LostAt(c, t, room) }

  /** Copies that go astray though they are not the server's own. */
  function StrayForeign(c: Cluster, a: ClusterAction, t: ServerId, room: RoomId): nat {
    UnroutedNow(c, a, t, room) + BrokerLostNow(c, a, t, room)
  }

  lemma OffQueueRead(c: Cluster, a: ClusterAction, t: ServerId, room: RoomId)
    requires ClusterEnabled(c, a) && a != Consume(t, room) && a != Lose(t, room)
    ensures ReadOf(ClusterNext(c, a), t, room) == ReadOf(c, t, room)
  {}

  lemma OnQueueRead(c: Cluster, a: ClusterAction, t: ServerId, room: RoomId)
    requires ClusterEnabled(c, a) && (a == Consume(t, room) || a == Lose(t, room))
    ensures ReadOf(ClusterNext(c, a), t, room) == ReadOf(c, t, room) + 1
  {}

  lemma OffQueueMissing(c: Cluster, a: ClusterAction, t: ServerId, room: RoomId)
    requires ClusterOk(c) && ClusterEnabled(c, a) && t in c.servers && a != Consume(t, room) && a != Lose(t, room)
    ensures Unexplained(ClusterNext(c, a), t, room) <= Unexplained(c, t, room)
  {
    OffQueueRead(c, a, t, room);
    LogGrows(c, a, room);
    EnqueuedGrows(c, a, t, room);
    MissingGrows(c, ClusterNext(c, a), t, room, false);
    SubsetCount(Missing(ClusterNext(c, a), t, room), Missing(c, t, room));
  }

  /** At most one more is missing after a step on the queue. */
  lemma OnQueueMissing(c: Cluster, a: ClusterAction, t: ServerId, room: RoomId)
    requires ClusterOk(c) && ClusterEnabled(c, a) && t in c.servers && (a == Consume(t, room) || a == Lose(t, room))
    ensures Missing(ClusterNext(c, a), t, room) <= Missing(c, t, room) + {ReadOf(c, t, room)}
    ensures |Missing(ClusterNext(c, a), t, room)| <= |Missing(c, t, room)| + 1
    ensures ReadOf(c, t, room) !in Missing(ClusterNext(c, a), t, room) ==>
      |Missing(ClusterNext(c, a), t, room)| <= |Missing(c, t, room)|
    ensures LostAt(c, t, room) <= LostAt(ClusterNext(c, a), t, room)
  {
    var d := ClusterNext(c, a);
    OnQueueRead(c, a, t, room);
    LogGrows(c, a, room);
    EnqueuedGrows(c, a, t, room);
    MissingGrows(c, d, t, room, true);
    AtMostOneMore(Missing(d, t, room), Missing(c, t, room), ReadOf(c, t, room));
  }

  lemma AtMostOneMore(a: set<nat>, b: set<nat>, j: nat)
    requires a <= b + {j}
    ensures |a| <= |b| + 1 && (j !in a ==> |a| <= |b|)
  {
    SubsetCount(a, b + {j});
    if j !in a { SubsetCount(a, b); }
  }

  /** A foreign copy that is forwarded is enqueued, or counted as lost. */
  lemma ForwardedArrives(c: Cluster, t: ServerId, room: RoomId)
    requires ClusterOk(c) && Unread(c, t, room) && Routed(c, t, room) && !FromHere(c, t, room)
    ensures var d := AfterConsume(c, t, room);
      Has(EnqueuedAt(d, t, room), LogOf(c, room)[ReadOf(c, t, room)].id) || LostAt(d, t, room) == LostAt(c, t, room) + 1
  {
    AlwaysForwardable(c, t, room);
    assert RoomsOk(c.servers[t]) && c.servers[t].id == t;
    var qm := LogOf(c, room)[ReadOf(c, t, room)];
    var item := Item(qm.id, Some(Rebuild(qm)));
    ForwardedTo(c, AfterConsume(c, t, room), t, room, item);
    RemoteArrives(RoomAt(c, t, room).value, item);
  }

  /** The room a copy is forwarded to is the one registered under the id. */
  lemma ForwardedTo(c: Cluster, d: Cluster, t: ServerId, room: RoomId, item: Item)
    requires t in c.servers && RoomsOk(c.servers[t]) && room in c.servers[t].handlers
    requires c.servers[t].handlers[room] in c.servers[t].heap
    requires d.servers == c.servers[t := InRoomAfter(c.servers[t], c.servers[t].handlers[room], Remote(item))]
    ensures RoomAt(c, t, room).Some? && RoomAt(d, t, room) == Some(AfterRemote(RoomAt(c, t, room).value, item))
  {
    HandlerRoom(c.servers[t], room);
  }

  lemma RemoteArrives(r: Room, item: Item)
    ensures var t := AfterRemote(r, item); Has(t.h.enqueued, item.tag) || t.h.lostRemote == r.h.lostRemote + 1
  {
    if !Full(r) { assert AfterRemote(r, item).h.enqueued[|r.h.enqueued|].item.tag == item.tag; }
  }

  lemma ConsumedMissing(c: Cluster, t: ServerId, room: RoomId)
    requires ClusterOk(c) && Unread(c, t, room)
    ensures Unexplained(ClusterNext(c, Consume(t, room)), t, room)
         <= Unexplained(c, t, room) + if Routed(c, t, room) then 0 else 1
  {
    OnQueueMissing(c, Consume(t, room), t, room);
    LoggedServerId(c, room, ReadOf(c, t, room));
    LogGrows(c, Consume(t, room), room);
    if Routed(c, t, room) && !FromHere(c, t, room) {
      ForwardedArrives(c, t, room);
      NextConsumes(c, t, room);
    }
  }

  lemma StepMissing(c: Cluster, a: ClusterAction, t: ServerId, room: RoomId)
    requires ClusterOk(c) && ClusterEnabled(c, a) && t in c.servers
    ensures Unexplained(ClusterNext(c, a), t, room) <= Unexplained(c, t, room) + StrayForeign(c, a, t, room)
  {
    if a == Consume(t, room) {
      ConsumedMissing(c, t, room);
    } else if a == Lose(t, room) {
      OnQueueMissing(c, a, t, room);
    } else {
      OffQueueMissing(c, a, t, room);
    }
  }

  /** What grows by at most g at each step grows by at most its sum over a run. */
  lemma {:induction false} GrowsWithin(c: Cluster, acts: seq<ClusterAction>, d: Cluster, inv: Cluster -> bool,
                                       f: Cluster -> int, g: (Cluster, ClusterAction) -> nat)
    requires inv(c) && ClusterRun(c, acts, d)
    requires forall e, a :: inv(e) && ClusterEnabled(e, a) ==>
      inv(ClusterNext(e, a)) && f(ClusterNext(e, a)) <= f(e) + g(e, a)
    ensures f(d) <= f(c) + SumIn(c, acts, g)
    decreases |acts|
  {
    if acts != [] { GrowsWithin(ClusterNext(c, acts[0]), acts[1..], d, inv, f, g); }
  }

  lemma {:induction false} TwoSums(c: Cluster, acts: seq<ClusterAction>, g: (Cluster, ClusterAction) -> nat,
                                   x: (Cluster, ClusterAction) -> nat, y: (Cluster, ClusterAction) -> nat)
    requires forall e, a :: g(e, a) == x(e, a) + y(e, a)
    ensures SumIn(c, acts, g) == SumIn(c, acts, x) + SumIn(c, acts, y)
    decreases |acts|
  {
    if acts != [] && ClusterEnabled(c, acts[0]) { TwoSums(ClusterNext(c, acts[0]), acts[1..], g, x, y); }
  }

  lemma StepUnexplained(c: Cluster, a: ClusterAction, t: ServerId, room: RoomId)
    requires ClusterOk(c) && t in c.servers && ClusterEnabled(c, a)
    ensures ClusterOk(ClusterNext(c, a)) && t in ClusterNext(c, a).servers
    ensures Unexplained(ClusterNext(c, a), t, room) <= Unexplained(c, t, room) + StrayForeign(c, a, t, room)
  {
    ClusterOkKept(c, a);
    SameMembers(c, a);
    StepMissing(c, a, t, room);
  }

  /** Of the foreign messages a queue has delivered, no more are missing from
      the room than were lost to a full Broadcast, read too early or lost by the
      broker. */
  lemma MissingBounded(start: Cluster, acts: seq<ClusterAction>, c: Cluster, t: ServerId, room: RoomId)
    requires ClusterStart(start) && ClusterRun(start, acts, c) && t in start.servers
    ensures |Missing(c, t, room)|
         <= LostAt(c, t, room) + UnroutedIn(start, acts, t, room) + BrokerLostIn(start, acts, t, room)
  {
    StartOk(start);
    var inv := (e: Cluster) => ClusterOk(e) && t in e.servers;
    var f := (e: Cluster) => Unexplained(e, t, room);
    var g := (e: Cluster, a: ClusterAction) => StrayForeign(e, a, t, room);
    forall e, a | inv(e) && ClusterEnabled(e, a)
      ensures inv(ClusterNext(e, a)) && f(ClusterNext(e, a)) <= f(e) + g(e, a)
    {
      StepUnexplained(e, a, t, room);
    }
    GrowsWithin(start, acts, c, inv, f, g);
    ForeignSums(start, acts, t, room, g);
    StartMissesNothing(start, t, room);
  }

  lemma ForeignSums(c: Cluster, acts: seq<ClusterAction>, t: ServerId, room: RoomId, g: (Cluster, ClusterAction) -> nat)
    requires forall e, a :: g(e, a) == StrayForeign(e, a, t, room)
    ensures SumIn(c, acts, g) == UnroutedIn(c, acts, t, room) + BrokerLostIn(c, acts, t, room)
  {
    TwoSums(c, acts, g, (e, a) => UnroutedNow(e, a, t, room), (e, a) => BrokerLostNow(e, a, t, room));
  }

  lemma StartMissesNothing(c: Cluster, t: ServerId, room: RoomId)
    requires ClusterStart(c)
    ensures Unexplained(c, t, room) == 0
  {
    assert Missing(c, t, room) == {};
  }

  // -------------------------------------------------------------- main results

  /** Nothing is left in a server's publish side, and all it was handed was
      published. */
  ghost predicate AllPublished(p: Pipe) {
    && p.queue == [] && p.temp == [] && !p.drain.Carrying?
    && (forall w :: 0 <= w < |p.workers| ==> !p.workers[w].Busy?)
    && p.h.failed == [] && p.h.unencodable == [] && p.dropped == 0
  }

  /** t's queue for the room is read to its end, and nothing that left it was
      lost on the way to Broadcast. */
  ghost predicate AllReceived(start: Cluster, acts: seq<ClusterAction>, c: Cluster, t: ServerId, room: RoomId) {
    && ReadOf(c, t, room) == |LogOf(c, room)| && LostAt(c, t, room) == 0
    && UnroutedIn(start, acts, t, room) == 0 && BrokerLostIn(start, acts, t, room) == 0
  }

  lemma {:induction false} NobodyHolds(ws: seq<Worker>, m: Msg)
    requires forall w :: 0 <= w < |ws| ==> !ws[w].Busy?
    ensures InHands(ws, m) == 0
  {
    if ws != [] { NobodyHolds(ws[..|ws| - 1], m); }
  }

  lemma HandedIsPublished(p: Pipe, m: Msg)
    requires Conserved(p) && Pipeline.Accounted(p) && AllPublished(p) && m in p.h.handed
    ensures m in p.h.published
  {
    NobodyHolds(p.workers, m);
    assert Copies(p.h.handed, m) == InFlight(p, m) + Ended(p, m);
    assert p.h.droppedMsgs == [];
  }

  /** What was said, and is not just being handed over, has been logged. */
  lemma SaidIsLogged(start: Cluster, acts: seq<ClusterAction>, c: Cluster, s: ServerId, ref: RoomRef, x: SessionId,
                     k: nat)
      returns (j: nat)
    requires ClusterStart(start) && ClusterRun(start, acts, c) && forall i :: 0 <= i < |acts| ==> Truthful(acts[i])
    requires s in c.servers && ref in c.servers[s].heap && s in c.pipes && AllPublished(c.pipes[s])
    requires x in c.servers[s].heap[ref].sessions && k < |c.servers[s].heap[ref].sessions[x].h.said|
    requires !InPublish(c.servers[s].heap[ref], TagOf(c.servers[s].heap[ref], x, k))
    ensures var r := c.servers[s].heap[ref]; j < |LogOf(c, r.id)| && LogOf(c, r.id)[j].id == TagOf(r, x, k)
  {
    var r := c.servers[s].heap[ref];
    StartOk(start);
    ClusterOkAlways(start, acts, c);
    HandedOverAlways(start, acts, c);
    PublishedAlways(start, acts, c);
    assert NothingWithheld(r, c.pipes[s].h.handed);
    var i :| 0 <= i < |c.pipes[s].h.handed| && c.pipes[s].h.handed[i].id == TagOf(r, x, k);
    j := HandedIsLogged(c, s, i);
  }

  lemma HandedIsLogged(c: Cluster, s: ServerId, i: nat) returns (j: nat)
    requires Parts(c) && AllHanded(c) && PublishedIsLogged(c) && s in c.pipes && AllPublished(c.pipes[s])
    requires i < |c.pipes[s].h.handed|
    ensures var qm := c.pipes[s].h.handed[i]; j < |LogOf(c, qm.id.room)| && LogOf(c, qm.id.room)[j] == qm
  {
    var qm := c.pipes[s].h.handed[i];
    assert PipeOk(c.pipes[s]);
    HandedIsPublished(c.pipes[s], qm);
    assert FromServer(c.servers[s], qm);
    j :| 0 <= j < |LogOf(c, qm.roomId)| && LogOf(c, qm.roomId)[j] == qm;
  }

  /** What is logged by another server has been enqueued here. */
  lemma LoggedIsEnqueued(start: Cluster, acts: seq<ClusterAction>, c: Cluster, t: ServerId, room: RoomId, j: nat)
    requires ClusterStart(start) && ClusterRun(start, acts, c) && t in start.servers
    requires AllReceived(start, acts, c, t, room)
    requires j < |LogOf(c, room)| && LogOf(c, room)[j].id.server != t
    ensures Has(EnqueuedAt(c, t, room), LogOf(c, room)[j].id)
  {
    MissingBounded(start, acts, c, t, room);
    assert Missing(c, t, room) == {};
    assert j !in Missing(c, t, room);
  }

  lemma ServersStay(start: Cluster, acts: seq<ClusterAction>, c: Cluster)
    requires ClusterStart(start) && ClusterRun(start, acts, c)
    ensures c.servers.Keys == start.servers.Keys
  {
    var inv := (e: Cluster) => e.pipes.Keys == e.servers.Keys == start.servers.Keys;
    forall e, a | inv(e) && ClusterEnabled(e, a) ensures inv(ClusterNext(e, a)) { SameMembers(e, a); }
    RunKeeps(start, acts, c, inv, a => true);
  }

  /** Exactly once, end to end: with a broker that keeps its word, once the
      publisher's pipe is empty and everything in it was published, and another
      server has read its queue to the end and lost nothing, what a session said
      is enqueued on that server exactly once, with the answer it got at home. */
  lemma EnqueuedExactlyOnce(start: Cluster, acts: seq<ClusterAction>, c: Cluster, s: ServerId, ref: RoomRef,
                            x: SessionId,
                            k: nat, t: ServerId, ref': RoomRef) returns (i: nat)
    requires ClusterStart(start) && ClusterRun(start, acts, c) && forall n :: 0 <= n < |acts| ==> Truthful(acts[n])
    requires s in c.servers && ref in c.servers[s].heap && s in c.pipes && AllPublished(c.pipes[s])
    requires x in c.servers[s].heap[ref].sessions && k < |c.servers[s].heap[ref].sessions[x].h.said|
    requires !InPublish(c.servers[s].heap[ref], TagOf(c.servers[s].heap[ref], x, k))
    requires t in c.servers && t != s && ref' in c.servers[t].heap
    requires c.servers[t].heap[ref'].id == c.servers[s].heap[ref].id
    requires AllReceived(start, acts, c, t, c.servers[s].heap[ref].id)
    ensures var tag := TagOf(c.servers[s].heap[ref], x, k);
      var es := c.servers[t].heap[ref'].h.enqueued;
      && i < |es| && es[i].item.tag == tag && es[i].item.resp.Some?
      && SameAnswer(es[i].item.resp.value, c.servers[s].heap[ref].sessions[x].h.said[k])
      && forall j :: 0 <= j < |es| && es[j].item.tag == tag ==> j == i
  {
    var r := c.servers[s].heap[ref];
    var j := SaidIsLogged(start, acts, c, s, ref, x, k);
    ServersStay(start, acts, c);
    StartOk(start);
    ClusterOkAlways(start, acts, c);
    HomeRoom(c, s, ref);
    HomeRoom(c, t, ref');
    LoggedIsEnqueued(start, acts, c, t, r.id, j);
    i :| 0 <= i < |EnqueuedAt(c, t, r.id)| && EnqueuedAt(c, t, r.id)[i].item.tag == TagOf(r, x, k);
    ImportAnswers(c, s, ref, t, ref', i);
  }

  /** A server's room is the one registered under its id. */
  lemma HomeRoom(c: Cluster, s: ServerId, ref: RoomRef)
    requires Parts(c) && s in c.servers && ref in c.servers[s].heap
    ensures var r := c.servers[s].heap[ref];
      && r.server == s && RoomAt(c, s, r.id) == Some(r) && r.id in c.servers[s].rooms && c.servers[s].rooms[r.id] == ref
  {
    assert ServerOk(c.servers[s]) && c.servers[s].id == s;
  }

  /** An imported event carries the answer given at home, and is there once. */
  lemma ImportAnswers(c: Cluster, s: ServerId, ref: RoomRef, t: ServerId, ref': RoomRef, i: nat)
    requires ClusterOk(c) && s in c.servers && ref in c.servers[s].heap && t in c.servers && ref' in c.servers[t].heap
    requires s != t && i < |c.servers[t].heap[ref'].h.enqueued|
    requires c.servers[t].heap[ref'].h.enqueued[i].item.tag.server == s
    requires c.servers[t].heap[ref'].h.enqueued[i].item.tag.room == c.servers[s].heap[ref].id
    ensures var es := c.servers[t].heap[ref'].h.enqueued;
      var tag := es[i].item.tag;
      && es[i].item.resp.Some?
      && tag.session in c.servers[s].heap[ref].sessions
      && tag.serial < |c.servers[s].heap[ref].sessions[tag.session].h.said|
      && SameAnswer(es[i].item.resp.value, c.servers[s].heap[ref].sessions[tag.session].h.said[tag.serial])
      && forall j :: 0 <= j < |es| && es[j].item.tag == tag ==> j == i
  {
    var r := c.servers[t].heap[ref'];
    HomeRoom(c, s, ref);
    assert RoomImports(c, t, r) && FromLog(c, t, r.id, r.h.enqueued[i].item);
    assert Tagged(r);
    EventAnswers(c, t, ref', i);
  }

  // --------------------------------------------------------------- at home

  /** With no local push dropped, everything said is in the record. */
  ghost predicate AllPushed(r: Room) {
    r.droppedBroadcast == 0 ==>
      forall x, k :: x in r.sessions && 0 <= k < |r.sessions[x].h.said| ==> Has(r.h.enqueued, TagOf(r, x, k))
  }

  lemma SayPushes(r: Room, x: SessionId, m: Message, leaving: bool, created: string, stamped: string)
    requires AllPushed(r) && x in r.sessions
    ensures AllPushed(Say(r, x, m, leaving, created, stamped))
  {
    var t := Say(r, x, m, leaving, created, stamped);
    SpeakingShape(r, x, m, leaving, created, stamped);
    if t.droppedBroadcast == 0 {
      assert t.h.enqueued[|r.h.enqueued|].item.tag == TagOf(r, x, |r.sessions[x].h.said|);
      forall y, k | y in t.sessions && 0 <= k < |t.sessions[y].h.said| ensures Has(t.h.enqueued, TagOf(t, y, k)) {
        assert TagOf(t, y, k) == TagOf(r, y, k);
        if y != x || k < |r.sessions[x].h.said| {
          assert Has(r.h.enqueued, TagOf(r, y, k));
          HasGrows(r.h.enqueued, t.h.enqueued, TagOf(r, y, k));
        }
      }
    }
  }

  lemma SameSaidPushed(r: Room, t: Room)
    requires AllPushed(r) && SamePublishing(r, t) && r.h.enqueued <= t.h.enqueued
    requires r.droppedBroadcast <= t.droppedBroadcast
    ensures AllPushed(t)
  {
    if t.droppedBroadcast == 0 {
      forall y, k | y in t.sessions && 0 <= k < |t.sessions[y].h.said| ensures Has(t.h.enqueued, TagOf(t, y, k)) {
        assert TagOf(t, y, k) == TagOf(r, y, k) && Has(r.h.enqueued, TagOf(r, y, k));
        HasGrows(r.h.enqueued, t.h.enqueued, TagOf(r, y, k));
      }
    }
  }

  lemma HearPushes(r: Room, x: SessionId, input: Input, created: string, stamped: string)
    requires AllPushed(r) && At(r, x, Reading)
    ensures AllPushed(AfterHear(r, x, input, created, stamped))
  {
    match Reaction(r.sessions[x], input)
    case None =>
    case Some((m, leaving)) =>
      if leaving {
        SayPushes(r, x, m, leaving, created, stamped);
      } else {
        OnePublishing(r, CountText(r, x), x);
        SameSaidPushed(r, CountText(r, x));
        SayPushes(CountText(r, x), x, m, leaving, created, stamped);
      }
  }

  lemma OthersDropNothing(r: Room, a: Action)
    requires Enabled(r, a) && !a.Greet? && !a.Hear?
    ensures Next(r, a).droppedBroadcast == r.droppedBroadcast
  {
    if OfLoop(a) { LoopDropsNothing(r, a); }
  }

  lemma LoopDropsNothing(r: Room, a: Action)
    requires Enabled(r, a) && OfLoop(a)
    ensures Next(r, a).droppedBroadcast == r.droppedBroadcast
  {}

  lemma HandoffPushed(r: Room, x: SessionId)
    requires AllPushed(r) && Enabled(r, Handoff(x))
    ensures AllPushed(Next(r, Handoff(x)))
  {
    var t := Next(r, Handoff(x));
    forall y, k | r.droppedBroadcast == 0 && y in t.sessions && 0 <= k < |t.sessions[y].h.said|
      ensures Has(t.h.enqueued, TagOf(t, y, k))
    {
      assert TagOf(t, y, k) == TagOf(r, y, k) && Has(r.h.enqueued, TagOf(r, y, k));
    }
  }

  lemma StepPushes(r: Room, a: Action)
    requires AllPushed(r) && Enabled(r, a)
    ensures AllPushed(Next(r, a))
  {
    if a.Greet? {
      SayPushes(r, a.x, r.sessions[a.x].join, false, a.created, a.stamped);
    } else if a.Hear? {
      HearPushes(r, a.x, a.input, a.created, a.stamped);
    } else if a.Handoff? {
      HandoffPushed(r, a.x);
    } else {
      QuietPublishing(r, a);
      RoomOnlyGrows(r, a);
      OthersDropNothing(r, a);
      SameSaidPushed(r, Next(r, a));
    }
  }

  lemma {:induction false} PushedAlways(r: Room, acts: seq<Action>, t: Room)
    requires AllPushed(r) && Run(r, acts, t)
    ensures AllPushed(t)
    decreases |acts|
  {
    if acts != [] {
      StepPushes(r, acts[0]);
      PushedAlways(Next(r, acts[0]), acts[1..], t);
    }
  }

  /** And at home: with no local push dropped, what a session said is enqueued
      there exactly once, as it was said. */
  lemma EnqueuedOnceAtHome(start: Cluster, acts: seq<ClusterAction>, c: Cluster, s: ServerId, ref: RoomRef,
                           x: SessionId, k: nat)
      returns (i: nat)
    requires ClusterStart(start) && ClusterRun(start, acts, c)
    requires s in c.servers && ref in c.servers[s].heap && c.servers[s].heap[ref].droppedBroadcast == 0
    requires x in c.servers[s].heap[ref].sessions && k < |c.servers[s].heap[ref].sessions[x].h.said|
    ensures var r := c.servers[s].heap[ref];
      && i < |r.h.enqueued| && r.h.enqueued[i] == RoomEvent(Item(TagOf(r, x, k), Some(r.sessions[x].h.said[k])), "")
      && forall j :: 0 <= j < |r.h.enqueued| && r.h.enqueued[j].item.tag == TagOf(r, x, k) ==> j == i
  {
    var r := c.servers[s].heap[ref];
    StartOk(start);
    ClusterOkAlways(start, acts, c);
    HomeRoom(c, s, ref);
    assert ServerOk(c.servers[s]) && Reached(r) && Tagged(r);
    i := PushedIndex(r, x, k);
    assert OwnEvent(r, i);
  }

  lemma PushedIndex(r: Room, x: SessionId, k: nat) returns (i: nat)
    requires Reached(r) && r.droppedBroadcast == 0 && x in r.sessions && k < |r.sessions[x].h.said|
    ensures i < |r.h.enqueued| && r.h.enqueued[i].item.tag == TagOf(r, x, k)
  {
    var racts :| Run(NewRoom(r.server, r.id, r.cap), racts, r);
    PushedAlways(NewRoom(r.server, r.id, r.cap), racts, r);
    assert Has(r.h.enqueued, TagOf(r, x, k));
    i :| 0 <= i < |r.h.enqueued| && r.h.enqueued[i].item.tag == TagOf(r, x, k);
  }
}
