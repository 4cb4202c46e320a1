/** Back-pressure strands nobody: a handler blocked in Publish on a full
    publishChan is let through by any one live worker, so every room of a
    cluster can settle as a room by itself does. */
module ClusterProgress {
  import opened Basics
  import opened RoomProtocol
  import opened RoomProgress
  import opened ChatServer
  import opened Pipeline
  import opened Cluster

  /** A worker of this server that has not exited. */
  predicate LiveWorker(c: Cluster, s: ServerId, w: nat) {
    && s in c.servers && s in c.pipes && c.pipes[s].chanCap > 0
    && w < |c.pipes[s].workers| && !c.pipes[s].workers[w].Gone?
  }

  /** What one worker does: take a message and have it end in way o. */
  predicate WorkerStep(a: ClusterAction, s: ServerId, w: nat, o: Outcome) {
    a.InPipe? && a.s == s && a.pact in [Take(w), OutcomeAction(w, o)]
  }

  /** Steps of one room's goroutines without input, and of one worker. */
  predicate Inside(a: ClusterAction, s: ServerId, ref: RoomRef, w: nat, o: Outcome) {
    || (a.Local? && a.s == s && a.act.InRoom? && a.act.ref == ref && !IsInput(a.act.act))
    || (a.Publish? && a.s == s && a.ref == ref)
    || WorkerStep(a, s, w, o)
  }

  lemma {:induction false} ClusterRunConcat(c: Cluster, acts: seq<ClusterAction>, d: Cluster,
                                            more: seq<ClusterAction>, e: Cluster)
    requires ClusterRun(c, acts, d) && ClusterRun(d, more, e)
    ensures ClusterRun(c, acts + more, e)
    decreases |acts|
  {
    if acts == [] {
      assert acts + more == more;
    } else {
      assert (acts + more)[1..] == acts[1..] + more;
      ClusterRunConcat(ClusterNext(c, acts[0]), acts[1..], d, more, e);
    }
  }

  lemma OneClusterStep(c: Cluster, a: ClusterAction, d: Cluster)
    requires ClusterEnabled(c, a) && d == ClusterNext(c, a)
    ensures ClusterRun(c, [a], d)
  {
    assert ClusterRun(d, [], d) && [a][1..] == [];
  }

  // ---------------------------------------------------------------- the pipe

  function InPipes(s: ServerId, pacts: seq<PipeAction>): (acts: seq<ClusterAction>)
    ensures |acts| == |pacts| && forall i :: 0 <= i < |acts| ==> acts[i] == InPipe(s, pacts[i], false)
  {
    seq(|pacts|, i requires 0 <= i < |pacts| => InPipe(s, pacts[i], false))
  }

  lemma PipeStepLifts(c: Cluster, s: ServerId, pact: PipeAction)
    requires s in c.pipes && PipeEnabled(c.pipes[s], pact) && !pact.Hand? && !pact.HandCancelled?
    ensures ClusterEnabled(c, InPipe(s, pact, false))
    ensures ClusterNext(c, InPipe(s, pact, false)) == WithPipe(c, s, PipeNext(c.pipes[s], pact))
  {}

  /** A run of the publish side is a run of the cluster. */
  lemma {:induction false} PipeRunLifts(c: Cluster, s: ServerId, pacts: seq<PipeAction>, q: Pipe)
    requires s in c.pipes && PipeRun(c.pipes[s], pacts, q)
    requires forall i :: 0 <= i < |pacts| ==> !pacts[i].Hand? && !pacts[i].HandCancelled?
    ensures ClusterRun(c, InPipes(s, pacts), WithPipe(c, s, q))
    decreases |pacts|
  {
    if pacts == [] {
      assert WithPipe(c, s, q) == c;
    } else {
      var d := WithPipe(c, s, PipeNext(c.pipes[s], pacts[0]));
      PipeStepLifts(c, s, pacts[0]);
      PipeRunLifts(d, s, pacts[1..], q);
      assert InPipes(s, pacts)[1..] == InPipes(s, pacts[1..]);
      assert WithPipe(d, s, q) == WithPipe(c, s, q);
    }
  }

  lemma {:induction false} WorkerStays(p: Pipe, pacts: seq<PipeAction>, q: Pipe, w: nat)
    requires Accounted(p) && PipeRun(p, pacts, q) && w < |p.workers| && !p.workers[w].Gone?
    requires forall i :: 0 <= i < |pacts| ==> pacts[i] != Leave(w)
    ensures w < |q.workers| && !q.workers[w].Gone? && q.chanCap == p.chanCap && Accounted(q)
    decreases |pacts|
  {
    if pacts != [] {
      AccountedKept(p, pacts[0]);
      WorkerStays(PipeNext(p, pacts[0]), pacts[1..], q, w);
    }
  }

  /** A worker that is alive, its pipe's books in order. */
  ghost predicate CanServe(c: Cluster, s: ServerId, w: nat) { LiveWorker(c, s, w) && Accounted(c.pipes[s]) }

  /** The worker makes room: its steps lead to q. */
  lemma RoomMade(c: Cluster, s: ServerId, w: nat, o: Outcome) returns (acts: seq<ClusterAction>, q: Pipe)
    requires CanServe(c, s, w)
    ensures ClusterRun(c, acts, WithPipe(c, s, q)) && |acts| <= 2
    ensures forall i :: 0 <= i < |acts| ==> WorkerStep(acts[i], s, w, o)
    ensures HasRoom(q) && CanServe(WithPipe(c, s, q), s, w)
  {
    var pacts;
    pacts, q := NeverWedges(c.pipes[s], w, o);
    acts := InPipes(s, pacts);
    PipeRunLifts(c, s, pacts, q);
    WorkerStays(c.pipes[s], pacts, q, w);
  }

  /** A handler blocked in Publish: at most two steps of one worker, whatever
      becomes of the message in its hand, and the call can return. */
  lemma PublishReturns(c: Cluster, s: ServerId, ref: RoomRef, x: SessionId, w: nat, o: Outcome)
      returns (acts: seq<ClusterAction>, d: Cluster)
    requires CanServe(c, s, w) && PublishEnabled(c, s, ref, x)
    ensures ClusterRun(c, acts, d) && |acts| <= 2 && forall i :: 0 <= i < |acts| ==> WorkerStep(acts[i], s, w, o)
    ensures ClusterEnabled(d, Publish(s, ref, x)) && d.servers == c.servers && CanServe(d, s, w)
  {
    var q;
    acts, q := RoomMade(c, s, w, o);
    d := WithPipe(c, s, q);
  }

  // ---------------------------------------------------------------- the rooms

  lemma PublishShape(c: Cluster, s: ServerId, ref: RoomRef, x: SessionId, w: nat)
    requires CanServe(c, s, w) && ClusterEnabled(c, Publish(s, ref, x))
    ensures var d := ClusterNext(c, Publish(s, ref, x));
      CanServe(d, s, w) && ref in d.servers[s].heap
      && d.servers[s].heap[ref] == Next(c.servers[s].heap[ref], Handoff(x))
  {
    AccountedKept(c.pipes[s], Hand(c.servers[s].heap[ref].sessions[x].phase.outgoing));
  }

  /** The publishing step of a handler, room made for it first. */
  lemma HandoffLifts(c: Cluster, s: ServerId, ref: RoomRef, x: SessionId, w: nat, o: Outcome)
      returns (acts: seq<ClusterAction>, d: Cluster)
    requires CanServe(c, s, w) && PublishEnabled(c, s, ref, x)
    ensures ClusterRun(c, acts, d) && forall i :: 0 <= i < |acts| ==> Inside(acts[i], s, ref, w, o)
    ensures CanServe(d, s, w) && ref in d.servers[s].heap
    ensures d.servers[s].heap[ref] == Next(c.servers[s].heap[ref], Handoff(x))
  {
    var first, e := PublishReturns(c, s, ref, x, w, o);
    PublishShape(e, s, ref, x, w);
    d := ClusterNext(e, Publish(s, ref, x));
    OneClusterStep(e, Publish(s, ref, x), d);
    ClusterRunConcat(c, first, e, [Publish(s, ref, x)], d);
    acts := first + [Publish(s, ref, x)];
  }

  lemma LocalLifts(c: Cluster, s: ServerId, ref: RoomRef, a: Action, w: nat)
    requires CanServe(c, s, w) && ref in c.servers[s].heap && Enabled(c.servers[s].heap[ref], a)
    requires !IsInput(a) && !a.Handoff?
    ensures ClusterEnabled(c, Local(s, InRoom(ref, a)))
    ensures var d := ClusterNext(c, Local(s, InRoom(ref, a)));
      CanServe(d, s, w) && ref in d.servers[s].heap && d.servers[s].heap[ref] == Next(c.servers[s].heap[ref], a)
  {}

  /** One step of the room, as the cluster performs it; r names what it leads
      to. */
  lemma StepLifts(c: Cluster, s: ServerId, ref: RoomRef, a: Action, r: Room, w: nat, o: Outcome)
      returns (acts: seq<ClusterAction>, d: Cluster)
    requires CanServe(c, s, w) && ref in c.servers[s].heap
    requires Enabled(c.servers[s].heap[ref], a) && !IsInput(a) && r == Next(c.servers[s].heap[ref], a)
    ensures ClusterRun(c, acts, d) && forall i :: 0 <= i < |acts| ==> Inside(acts[i], s, ref, w, o)
    ensures CanServe(d, s, w) && ref in d.servers[s].heap && d.servers[s].heap[ref] == r
  {
    if a.Handoff? {
      acts, d := HandoffLifts(c, s, ref, a.x, w, o);
    } else {
      LocalLifts(c, s, ref, a, w);
      acts, d := [Local(s, InRoom(ref, a))], ClusterNext(c, Local(s, InRoom(ref, a)));
      OneClusterStep(c, Local(s, InRoom(ref, a)), d);
    }
  }

  lemma AllInside(first: seq<ClusterAction>, rest: seq<ClusterAction>, s: ServerId, ref: RoomRef, w: nat, o: Outcome)
    requires forall i :: 0 <= i < |first| ==> Inside(first[i], s, ref, w, o)
    requires forall i :: 0 <= i < |rest| ==> Inside(rest[i], s, ref, w, o)
    ensures forall i :: 0 <= i < |first + rest| ==> Inside((first + rest)[i], s, ref, w, o)
  {}

  /** A run of a room by itself is what a run of the cluster does to it. */
  lemma {:induction false} RoomRunLifts(c: Cluster, s: ServerId, ref: RoomRef, r: Room, racts: seq<Action>, t: Room,
                                        w: nat,
                                        o: Outcome) returns (acts: seq<ClusterAction>, d: Cluster)
    requires CanServe(c, s, w) && ref in c.servers[s].heap && c.servers[s].heap[ref] == r
    requires Run(r, racts, t) && forall i :: 0 <= i < |racts| ==> !IsInput(racts[i])
    ensures ClusterRun(c, acts, d) && forall i :: 0 <= i < |acts| ==> Inside(acts[i], s, ref, w, o)
    ensures s in d.servers && ref in d.servers[s].heap && d.servers[s].heap[ref] == t
    decreases |racts|
  {
    if racts == [] {
      acts, d := [], c;
    } else {
      var r1 := Next(r, racts[0]);
      var first, e := StepLifts(c, s, ref, racts[0], r1, w, o);
      var rest;
      rest, d := RoomRunLifts(e, s, ref, r1, racts[1..], t, w, o);
      ClusterRunConcat(c, first, e, rest, d);
      AllInside(first, rest, s, ref, w, o);
      acts := first + rest;
    }
  }

  // -------------------------------------------------------------- main result

  /** From any reachable state of a cluster, with one live worker on a server,
      each of its rooms can settle by steps of that room's goroutines and that
      worker alone, however full publishChan and tempBuffer are and whatever
      becomes of the worker's messages; then every handler of the room is
      reading or gone, none is left in Publish, but for an empty user id. */
  lemma RoomsSettleUnderBackPressure(start: Cluster, before: seq<ClusterAction>, c: Cluster, s: ServerId, ref: RoomRef,
                                     w: nat, o: Outcome) returns (acts: seq<ClusterAction>, d: Cluster)
    requires ClusterStart(start) && ClusterRun(start, before, c)
    requires LiveWorker(c, s, w) && ref in c.servers[s].heap
    ensures ClusterRun(c, acts, d) && forall i :: 0 <= i < |acts| ==> Inside(acts[i], s, ref, w, o)
    ensures s in d.servers && ref in d.servers[s].heap && Settled(d.servers[s].heap[ref])
    ensures var r := d.servers[s].heap[ref];
      forall x :: x in r.sessions ==>
        r.sessions[x].phase.Reading? || r.sessions[x].phase.Departed? || Stranded(r, x)
  {
    StartOk(start);
    ClusterOkAlways(start, before, c);
    assert ServerOk(c.servers[s]);
    ReachedSafe(c.servers[s].heap[ref]);
    assert PipeOk(c.pipes[s]);
    var racts, t := Settles(c.servers[s].heap[ref]);
    acts, d := RoomRunLifts(c, s, ref, c.servers[s].heap[ref], racts, t, w, o);
    ClusterOkAlways(c, acts, d);
    assert ServerOk(d.servers[s]);
    NobodyStrandedIn(t);
  }

  lemma NobodyStrandedIn(r: Room)
    requires Reached(r) && Settled(r)
    ensures forall x :: x in r.sessions ==>
      r.sessions[x].phase.Reading? || r.sessions[x].phase.Departed? || Stranded(r, x)
  {
    var acts :| Run(NewRoom(r.server, r.id, r.cap), acts, r);
    forall x | x in r.sessions
      ensures r.sessions[x].phase.Reading? || r.sessions[x].phase.Departed? || Stranded(r, x)
    {
      NobodyIsStranded(r.server, r.id, r.cap, acts, r, x);
    }
  }
}
