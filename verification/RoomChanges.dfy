/** What one step of a cluster does to one room, and how an invariant of single
    steps becomes one of runs. */
module RoomChanges {
  import opened Basics
  import opened RoomProtocol
  import opened ChatServer
  import opened Pipeline
  import opened Cluster

  /** A room is new, as it was, or one action of its own protocol further. */
  datatype RoomChange = Born | Unchanged | Moved(act: Action)

  ghost predicate Changed(s: Server, t: Server, ref: RoomRef, ch: RoomChange)
    requires ref in t.heap
  {
    match ch
    case Born => ref !in s.heap && t.heap[ref] == NewRoom(t.heap[ref].server, t.heap[ref].id, t.heap[ref].cap)
    case Unchanged => ref in s.heap && t.heap[ref] == s.heap[ref]
    case Moved(act) => ref in s.heap && Enabled(s.heap[ref], act) && t.heap[ref] == Next(s.heap[ref], act)
  }

  lemma InRoomChange(s: Server, at: RoomRef, act: Action, ref: RoomRef) returns (ch: RoomChange)
    requires at in s.heap && Enabled(s.heap[at], act) && ref in s.heap
    ensures Changed(s, InRoomAfter(s, at, act), ref, ch)
    ensures ch == if ref == at then Moved(act) else Unchanged
  {
    ch := if ref == at then Moved(act) else Unchanged;
  }

  /** What a server does by itself. */
  lemma ServerChange(s: Server, a: ServerAction, ref: RoomRef) returns (ch: RoomChange)
    requires ServerEnabled(s, a) && ref in ServerNext(s, a).heap
    ensures Changed(s, ServerNext(s, a), ref, ch)
    ensures ch.Moved? ==> ch.act.Enter? || a == InRoom(ref, ch.act)
  {
    if a.InRoom? {
      ch := InRoomChange(s, a.ref, a.act, ref);
    } else if a.Join? {
      ch := InRoomChange(s, s.arrivals[a.j].ref, Enter(a.x, s.arrivals[a.j].join), ref);
    } else {
      ch := if ref in s.heap then Unchanged else Born;
    }
  }

  /** The step of the cluster behind an action of the room. */
  predicate CausedBy(a: ClusterAction, s: ServerId, ref: RoomRef, act: Action) {
    if act.Remote? then a.Consume? && a.s == s
    else if act.Handoff? then (a.Publish? || a.PublishCancelled?) && a.s == s && a.ref == ref && a.x == act.x
    else act.Enter? || a == Local(s, InRoom(ref, act))
  }

  lemma LocalChange(c: Cluster, s: ServerId, act: ServerAction, ref: RoomRef) returns (ch: RoomChange)
    requires ClusterEnabled(c, Local(s, act)) && ref in ServerNext(c.servers[s], act).heap
    ensures Changed(c.servers[s], ServerNext(c.servers[s], act), ref, ch)
    ensures ch.Moved? ==> CausedBy(Local(s, act), s, ref, ch.act)
  {
    ch := ServerChange(c.servers[s], act, ref);
  }

  lemma ConsumeChange(c: Cluster, s: ServerId, room: RoomId, ref: RoomRef) returns (ch: RoomChange)
    requires Unread(c, s, room) && ref in c.servers[s].heap
    ensures s in AfterConsume(c, s, room).servers && ref in AfterConsume(c, s, room).servers[s].heap
    ensures Changed(c.servers[s], AfterConsume(c, s, room).servers[s], ref, ch)
    ensures ch.Moved? ==> ch.act.Remote?
  {
    var qm := LogOf(c, room)[ReadOf(c, s, room)];
    var server := c.servers[s];
    if room in server.handlers && server.handlers[room] in server.heap && qm.serverId != server.id {
      ch := InRoomChange(server, server.handlers[room], Remote(Item(qm.id, Some(Rebuild(qm)))), ref);
    } else {
      ch := Unchanged;
    }
  }

  lemma PublishChange(c: Cluster, s: ServerId, at: RoomRef, x: SessionId, cancelled: bool, ref: RoomRef)
      returns (ch: RoomChange)
    requires PublishEnabled(c, s, at, x) && (!cancelled ==> HasRoom(c.pipes[s])) && ref in c.servers[s].heap
    ensures var d := AfterPublish(c, s, at, x, cancelled);
      s in d.servers && ref in d.servers[s].heap && Changed(c.servers[s], d.servers[s], ref, ch)
    ensures ch == if ref == at then Moved(Handoff(x)) else Unchanged
  {
    ch := InRoomChange(c.servers[s], at, Handoff(x), ref);
  }

  /** The server acting is another one, or none. */
  lemma ElsewhereUnchanged(c: Cluster, a: ClusterAction, s: ServerId)
    requires ClusterEnabled(c, a) && (a.InPipe? || a.Lose? || a.s != s)
    ensures s in ClusterNext(c, a).servers <==> s in c.servers
    ensures s in c.servers ==> ClusterNext(c, a).servers[s] == c.servers[s]
  {}

  /** Every step of a cluster changes a room in one of the three ways. */
  lemma ChangeOf(c: Cluster, a: ClusterAction, s: ServerId, ref: RoomRef) returns (ch: RoomChange)
    requires ClusterEnabled(c, a) && s in ClusterNext(c, a).servers && ref in ClusterNext(c, a).servers[s].heap
    ensures s in c.servers && Changed(c.servers[s], ClusterNext(c, a).servers[s], ref, ch)
    ensures ch.Moved? ==> CausedBy(a, s, ref, ch.act)
  {
    if a.InPipe? || a.Lose? || a.s != s {
      ElsewhereUnchanged(c, a, s);
      ch := Unchanged;
    } else if a.Local? {
      ch := LocalChange(c, s, a.act, ref);
    } else if a.Consume? {
      ch := ConsumeChange(c, s, a.room, ref);
    } else {
      ch := PublishChange(c, s, a.ref, a.x, a.PublishCancelled?, ref);
    }
  }

  /** What every step of a kind keeps, runs of such steps keep. */
  lemma {:induction false} RunKeeps(c: Cluster, acts: seq<ClusterAction>, d: Cluster, inv: Cluster -> bool,
                                    kind: ClusterAction -> bool)
    requires inv(c) && ClusterRun(c, acts, d) && forall i :: 0 <= i < |acts| ==> kind(acts[i])
    requires forall e, a :: inv(e) && ClusterEnabled(e, a) && kind(a) ==> inv(ClusterNext(e, a))
    ensures inv(d)
    decreases |acts|
  {
    if acts != [] { RunKeeps(ClusterNext(c, acts[0]), acts[1..], d, inv, kind); }
  }
}
