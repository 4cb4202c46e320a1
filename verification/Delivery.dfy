/** What the cluster promises end to end: no response is enqueued twice on any
    server, every server answers alike, and sessions of a room agree on order. */
module Delivery {
  import opened Basics
  import opened Models
  import opened RoomProtocol
  import opened RoomSafety
  import opened RoomWindow
  import opened RoomTags
  import opened ChatServer
  import opened Cluster

  // ------------------------------------------------------------- at most once

  /** In every reachable state of a cluster of any size, a server's Broadcast
      for a room is never given two events of one identity. Events of the
      server's own sessions are what the session said, or its removal; events
      of other servers' sessions came once each through this server's queue. */
  lemma AtMostOnce(start: Cluster, acts: seq<ClusterAction>, c: Cluster, s: ServerId, ref: RoomRef)
    requires ClusterStart(start) && ClusterRun(start, acts, c)
    requires s in c.servers && ref in c.servers[s].heap
    ensures var r := c.servers[s].heap[ref];
      && r.server == s
      && (forall i, j :: 0 <= i < j < |r.h.enqueued| ==> r.h.enqueued[i].item.tag != r.h.enqueued[j].item.tag)
      && (forall k :: 0 <= k < |r.h.enqueued| ==>
            if r.h.enqueued[k].item.tag.server == s then OwnEvent(r, k)
            else FromLog(c, s, r.id, r.h.enqueued[k].item))
  {
    StartOk(start);
    ClusterOkAlways(start, acts, c);
    var r := c.servers[s].heap[ref];
    assert Tagged(r) && RoomImports(c, s, r);
  }

  /** Re-buffering included, the exchange gets each message at most once, and
      only messages some session said. */
  lemma ExchangeAtMostOnce(start: Cluster, acts: seq<ClusterAction>, c: Cluster, room: RoomId)
    requires ClusterStart(start) && ClusterRun(start, acts, c)
    ensures DistinctIds(LogOf(c, room))
    ensures forall k :: 0 <= k < |LogOf(c, room)| ==>
      var qm := LogOf(c, room)[k];
      qm.id.room == room && qm.id.server in c.servers && FromServer(c.servers[qm.id.server], qm)
  {
    StartOk(start);
    ClusterOkAlways(start, acts, c);
    LoggedAreSaid(c, room);
  }

  lemma LoggedAreSaid(c: Cluster, room: RoomId)
    requires Parts(c) && AllHanded(c) && Logged(c)
    ensures DistinctIds(LogOf(c, room))
    ensures forall k :: 0 <= k < |LogOf(c, room)| ==>
      var qm := LogOf(c, room)[k];
      qm.id.room == room && qm.id.server in c.servers && FromServer(c.servers[qm.id.server], qm)
  {
    forall k | 0 <= k < |LogOf(c, room)|
      ensures var qm := LogOf(c, room)[k];
        qm.id.room == room && qm.id.server in c.servers && FromServer(c.servers[qm.id.server], qm)
    {
      LoggedServerId(c, room, k);
    }
  }

  // ------------------------------------------------------------- same answers

  /** What the session behind a tag said. */
  ghost predicate SaidAs(c: Cluster, tag: Tag, resp: Response) {
    && tag.server in c.servers
    && tag.room in c.servers[tag.server].rooms
    && c.servers[tag.server].rooms[tag.room] in c.servers[tag.server].heap
    && var r := c.servers[tag.server].heap[c.servers[tag.server].rooms[tag.room]];
       && tag.session in r.sessions && tag.serial < |r.sessions[tag.session].h.said|
       && SameAnswer(resp, r.sessions[tag.session].h.said[tag.serial])
  }

  lemma OwnResponse(c: Cluster, s: ServerId, ref: RoomRef, k: nat)
    requires ClusterOk(c) && s in c.servers && ref in c.servers[s].heap
    requires k < |c.servers[s].heap[ref].h.enqueued| && c.servers[s].heap[ref].h.enqueued[k].item.resp.Some?
    requires c.servers[s].heap[ref].h.enqueued[k].item.tag.server == s
    ensures var item := c.servers[s].heap[ref].h.enqueued[k].item; SaidAs(c, item.tag, item.resp.value)
  {
    var r := c.servers[s].heap[ref];
    assert ServerOk(c.servers[s]) && c.servers[s].rooms[r.id] == ref && r.server == s;
    ReachedSafe(r);
    OwnWasSaid(r, k);
  }

  /** An event of the room's own that carries a response is what was said. */
  lemma OwnWasSaid(r: Room, k: nat)
    requires Removals(r) && Tags(r) && k < |r.h.enqueued| && r.h.enqueued[k].item.resp.Some?
    requires r.h.enqueued[k].item.tag.server == r.server
    ensures var item := r.h.enqueued[k].item;
      && item.tag.room == r.id && item.tag.session in r.sessions
      && item.tag.serial < |r.sessions[item.tag.session].h.said|
      && item.resp == Some(r.sessions[item.tag.session].h.said[item.tag.serial])
  {
    assert OwnEvent(r, k);
    var x := r.h.enqueued[k].item.tag.session;
    assert r.sessions[x].h.queuedAt == Some(k) ==> r.h.enqueued[k] == RemovalEvent(r, x);
  }

  lemma RebuiltAnswer(said: Response, tag: Tag, stamped: string)
    requires Genuine(said)
    ensures SameAnswer(Rebuild(ToQueue(tag, said, stamped)), said)
  {}

  lemma LoggedResponse(c: Cluster, room: RoomId, j: nat)
    requires ClusterOk(c) && j < |LogOf(c, room)|
    ensures SaidAs(c, LogOf(c, room)[j].id, Rebuild(LogOf(c, room)[j]))
  {
    var qm := LogOf(c, room)[j];
    LoggedServerId(c, room, j);
    var server := c.servers[qm.id.server];
    var r := server.heap[server.rooms[qm.id.room]];
    assert Tagged(r) && Speech(r, qm.id.session);
    RebuiltAnswer(r.sessions[qm.id.session].h.said[qm.id.serial], qm.id, qm.timestamp);
  }

  lemma EventAnswers(c: Cluster, s: ServerId, ref: RoomRef, k: nat)
    requires ClusterOk(c) && s in c.servers && ref in c.servers[s].heap
    requires k < |c.servers[s].heap[ref].h.enqueued| && c.servers[s].heap[ref].h.enqueued[k].item.resp.Some?
    ensures var item := c.servers[s].heap[ref].h.enqueued[k].item; SaidAs(c, item.tag, item.resp.value)
  {
    var r := c.servers[s].heap[ref];
    if r.h.enqueued[k].item.tag.server == s {
      OwnResponse(c, s, ref, k);
    } else {
      assert RoomImports(c, s, r);
      assert FromLog(c, s, r.id, r.h.enqueued[k].item);
      var j :| 0 <= j < ReadOf(c, s, r.id) && j < |LogOf(c, r.id)|
        && LogOf(c, r.id)[j].id == r.h.enqueued[k].item.tag
        && r.h.enqueued[k].item.resp == Some(Rebuild(LogOf(c, r.id)[j]));
      LoggedResponse(c, r.id, j);
    }
  }

  /** One response, fanned out on two servers (its origin among them or not),
      has the same message, status and error on both. */
  lemma ServersAnswerAlike(start: Cluster, acts: seq<ClusterAction>, c: Cluster,
                           s: ServerId, ref: RoomRef, k: nat, t: ServerId, ref': RoomRef, l: nat)
    requires ClusterStart(start) && ClusterRun(start, acts, c)
    requires s in c.servers && ref in c.servers[s].heap && k < |c.servers[s].heap[ref].h.enqueued|
    requires t in c.servers && ref' in c.servers[t].heap && l < |c.servers[t].heap[ref'].h.enqueued|
    requires c.servers[s].heap[ref].h.enqueued[k].item.tag == c.servers[t].heap[ref'].h.enqueued[l].item.tag
    requires c.servers[s].heap[ref].h.enqueued[k].item.resp.Some?
    requires c.servers[t].heap[ref'].h.enqueued[l].item.resp.Some?
    ensures SameAnswer(c.servers[s].heap[ref].h.enqueued[k].item.resp.value,
                       c.servers[t].heap[ref'].h.enqueued[l].item.resp.value)
  {
    StartOk(start);
    ClusterOkAlways(start, acts, c);
    EventAnswers(c, s, ref, k);
    EventAnswers(c, t, ref', l);
  }

  // ---------------------------------------------------------- order agreement

  /** Where the i-th accepted offer stands among all offers. */
  function Position(os: seq<Offer>, i: nat): (k: nat)
    requires i < |Accepted(os)|
    ensures k < |os| && os[k].accepted && os[k].item == Accepted(os)[i]
  {
    var front := os[..|os| - 1];
    if i < |Accepted(front)| then Position(front, i) else |os| - 1
  }

  lemma {:induction false} PositionsIncrease(os: seq<Offer>, i: nat, j: nat)
    requires i < j < |Accepted(os)|
    ensures Position(os, i) < Position(os, j)
  {
    var front := os[..|os| - 1];
    if j < |Accepted(front)| { PositionsIncrease(front, i, j); }
  }

  lemma {:induction false} FanItemsFromEvents(es: seq<RoomEvent>, i: nat) returns (k: nat)
    requires i < |FanItems(es)|
    ensures k < |es| && !Removal(es[k]) && es[k].item == FanItems(es)[i] && i == |FanItems(es[..k])|
  {
    var front := es[..|es| - 1];
    if i < |FanItems(front)| {
      k := FanItemsFromEvents(front, i);
      assert front[..k] == es[..k];
    } else {
      k := |es| - 1;
    }
  }

  lemma FanItemsDistinct(es: seq<RoomEvent>, i: nat, j: nat)
    requires forall a, b :: 0 <= a < b < |es| ==> es[a].item.tag != es[b].item.tag
    requires i < |FanItems(es)| && j < |FanItems(es)| && FanItems(es)[i] == FanItems(es)[j]
    ensures i == j
  {
    var a := FanItemsFromEvents(es, i);
    var b := FanItemsFromEvents(es, j);
  }

  lemma SlicesAgree(fanned: seq<Item>, x: SessionHistory, ex: int, y: SessionHistory, ey: int,
                    i: nat, j: nat, k: nat, l: nat)
    requires OfferedUpTo(fanned, x, ex) && OfferedUpTo(fanned, y, ey)
    requires forall a: nat, b: nat :: a < |fanned| && b < |fanned| && fanned[a] == fanned[b] ==> a == b
    requires i < j < |Accepted(x.offered)| && k < |Accepted(y.offered)| && l < |Accepted(y.offered)|
    requires Accepted(x.offered)[i] == Accepted(y.offered)[k] && Accepted(x.offered)[j] == Accepted(y.offered)[l]
    ensures k < l
  {
    PositionsIncrease(x.offered, i, j);
    var a, b := Position(x.offered, i), Position(x.offered, j);
    var c, d := Position(y.offered, k), Position(y.offered, l);
    assert fanned[x.joinedAt + a] == fanned[y.joinedAt + c];
    assert fanned[x.joinedAt + b] == fanned[y.joinedAt + d];
    if l < k { PositionsIncrease(y.offered, l, k); }
  }

  lemma ReachedRecorded(r: Room)
    requires Reached(r)
    ensures Safe(r) && Recorded(r)
  {
    var acts :| Run(NewRoom(r.server, r.id, r.cap), acts, r);
    RecordedFromStart(r.server, r.id, r.cap, acts, r);
  }

  lemma FannedDistinct(r: Room)
    requires Fanned(r) && Distinct(r)
    ensures forall a: nat, b: nat :: a < |r.h.fanned| && b < |r.h.fanned| && r.h.fanned[a] == r.h.fanned[b] ==> a == b
  {
    var es := r.h.enqueued[..Done(r)];
    forall a: nat, b: nat | a < |r.h.fanned| && b < |r.h.fanned| && r.h.fanned[a] == r.h.fanned[b] ensures a == b {
      FanItemsDistinct(es, a, b);
    }
  }

  /** i before j for x, where y has the same two at k and l. */
  ghost predicate BothReceived(r: Room, x: SessionId, i: nat, j: nat, y: SessionId, k: nat, l: nat) {
    && x in r.sessions && y in r.sessions
    && var got, got' := Accepted(r.sessions[x].h.offered), Accepted(r.sessions[y].h.offered);
       && i < j < |got| && k < |got'| && l < |got'|
       && got[i] == got'[k] && got[j] == got'[l]
  }

  lemma RoomOrder(r: Room, x: SessionId, i: nat, j: nat, y: SessionId, k: nat, l: nat)
    requires Fanned(r) && Windows(r) && Distinct(r) && BothReceived(r, x, i, j, y, k, l)
    ensures k < l
  {
    FannedDistinct(r);
    SlicesAgree(r.h.fanned, r.sessions[x].h, End(r, r.sessions[x]), r.sessions[y].h, End(r, r.sessions[y]), i, j, k, l);
  }

  /** Any two sessions of a room see the responses they both receive in the
      same relative order, however they raced to create or join the room. */
  lemma OrderAgreement(start: Cluster, acts: seq<ClusterAction>, c: Cluster, s: ServerId, ref: RoomRef,
                       x: SessionId, i: nat, j: nat, y: SessionId, k: nat, l: nat)
    requires ClusterStart(start) && ClusterRun(start, acts, c)
    requires s in c.servers && ref in c.servers[s].heap
    requires BothReceived(c.servers[s].heap[ref], x, i, j, y, k, l)
    ensures k < l
  {
    StartOk(start);
    ClusterOkAlways(start, acts, c);
    var r := c.servers[s].heap[ref];
    assert Reached(r) && Tagged(r);
    ReachedRecorded(r);
    RoomOrder(r, x, i, j, y, k, l);
  }

  lemma NoneTwice(fanned: seq<Item>, h: SessionHistory, e: int, i: nat, j: nat)
    requires OfferedUpTo(fanned, h, e) && i < j < |Accepted(h.offered)|
    requires forall a: nat, b: nat :: a < |fanned| && b < |fanned| && fanned[a] == fanned[b] ==> a == b
    ensures Accepted(h.offered)[i] != Accepted(h.offered)[j]
  {
    PositionsIncrease(h.offered, i, j);
    var a, b := Position(h.offered, i), Position(h.offered, j);
    assert fanned[h.joinedAt + a] == h.offered[a].item && fanned[h.joinedAt + b] == h.offered[b].item;
  }

  /** No session's Send ever accepts one response twice. */
  lemma SessionReceivesOnce(start: Cluster, acts: seq<ClusterAction>, c: Cluster, s: ServerId, ref: RoomRef,
                            x: SessionId, i: nat, j: nat)
    requires ClusterStart(start) && ClusterRun(start, acts, c)
    requires s in c.servers && ref in c.servers[s].heap && x in c.servers[s].heap[ref].sessions
    requires i < j < |Accepted(c.servers[s].heap[ref].sessions[x].h.offered)|
    ensures Accepted(c.servers[s].heap[ref].sessions[x].h.offered)[i]
         != Accepted(c.servers[s].heap[ref].sessions[x].h.offered)[j]
  {
    StartOk(start);
    ClusterOkAlways(start, acts, c);
    var r := c.servers[s].heap[ref];
    assert Reached(r) && Tagged(r);
    ReachedRecorded(r);
    FannedDistinct(r);
    NoneTwice(r.h.fanned, r.sessions[x].h, End(r, r.sessions[x]), i, j);
  }
}
