/** What reaches the connections: under the sizing rule the whole window of a
    session is not only accepted by its Send but written. */
module Reception {
  import opened Basics
  import opened RoomProtocol
  import opened RoomSafety
  import opened RoomWindow
  import opened RoomProgress
  import opened ChatServer
  import opened Cluster
  import opened Sizing
  import opened RoomChanges

  /** No write to this session's connection has failed. */
  ghost predicate NoFailure(c: Cluster, s: ServerId, ref: RoomRef, x: SessionId) {
    s in c.servers && ref in c.servers[s].heap ==> !FailedAt(c.servers[s].heap[ref], x)
  }

  /** The step that is a failing write to it. */
  function FailingWrite(s: ServerId, ref: RoomRef, x: SessionId): ClusterAction { Local(s, InRoom(ref, WriterFail(x))) }

  lemma NoFailureKept(c: Cluster, a: ClusterAction, s: ServerId, ref: RoomRef, x: SessionId)
    requires ClusterOk(c) && NoFailure(c, s, ref, x) && ClusterEnabled(c, a) && a != FailingWrite(s, ref, x)
    ensures NoFailure(ClusterNext(c, a), s, ref, x)
  {
    var d := ClusterNext(c, a);
    if s in d.servers && ref in d.servers[s].heap {
      var ch := ChangeOf(c, a, s, ref);
      if ch.Moved? {
        var r := c.servers[s].heap[ref];
        assert ServerOk(c.servers[s]) && Reached(r);
        ReachedSafe(r);
        FailedStep(r, ch.act, x);
      }
    }
  }

  lemma NoFailureAlways(start: Cluster, acts: seq<ClusterAction>, c: Cluster, s: ServerId, ref: RoomRef, x: SessionId)
    requires ClusterStart(start) && ClusterRun(start, acts, c) && FailingWrite(s, ref, x) !in acts
    ensures NoFailure(c, s, ref, x)
  {
    StartOk(start);
    var inv := (e: Cluster) => ClusterOk(e) && NoFailure(e, s, ref, x);
    var kind := (a: ClusterAction) => a != FailingWrite(s, ref, x);
    forall e, a | inv(e) && ClusterEnabled(e, a) && kind(a) ensures inv(ClusterNext(e, a)) {
      ClusterOkKept(e, a);
      NoFailureKept(e, a, s, ref, x);
    }
    RunKeeps(start, acts, c, inv, kind);
  }

  /** In a settled room not cancelled, a session none of whose writes failed has
      been written all that its Send accepted. */
  lemma AllIsWritten(r: Room, x: SessionId)
    requires Reached(r) && Settled(r) && !r.cancelled && x in r.sessions && !FailedAt(r, x)
    ensures r.sessions[x].h.written == Accepted(r.sessions[x].h.offered)
  {
    var racts :| Run(NewRoom(r.server, r.id, r.cap), racts, r);
    SafeFromStart(r.server, r.id, r.cap, racts, r);
    FailedIffWriteFailed(NewRoom(r.server, r.id, r.cap), racts, r, x);
    EverythingIsWritten(r.server, r.id, r.cap, racts, r, x);
  }

  /** With U sessions and M texts each and buffers of at least U * (M + 3), once
      the room has settled, not cancelled, every session none of whose writes
      failed has had its whole window written to its connection, in order and
      without a gap. */
  lemma WholeWindowIsWritten(start: Cluster, acts: seq<ClusterAction>, c: Cluster, room: RoomId, u: nat, m: nat,
                             s: ServerId, ref: RoomRef, x: SessionId)
    requires ClusterStart(start) && ClusterRun(start, acts, c)
    requires |Speakers(c, room)| <= u && forall p :: p in Speakers(c, room) ==> TextsOf(c, room, p) <= m
    requires forall t :: t in c.servers ==> u * (m + 3) <= c.servers[t].cap
    requires s in c.servers && ref in c.servers[s].heap && c.servers[s].heap[ref].id == room
    requires Settled(c.servers[s].heap[ref]) && !c.servers[s].heap[ref].cancelled
    requires x in c.servers[s].heap[ref].sessions && FailingWrite(s, ref, x) !in acts
    ensures var r := c.servers[s].heap[ref];
      var h := r.sessions[x].h;
      && 0 <= h.joinedAt <= End(r, r.sessions[x]) <= |r.h.fanned|
      && h.written == r.h.fanned[h.joinedAt..End(r, r.sessions[x])]
  {
    NothingIsDropped(start, acts, c, room, u, m, s, ref);
    NoFailureAlways(start, acts, c, s, ref, x);
    StartOk(start);
    ClusterOkAlways(start, acts, c);
    assert ServerOk(c.servers[s]);
    AllIsWritten(c.servers[s].heap[ref], x);
  }
}
