/** The server as it is updated in place: Rooms, the rooms' Users and the
    UserRooms index. Each method is one call run without interruption. */
module ServerLoops {
  import opened Basics
  import opened Models
  import opened RoomProtocol
  import opened ChatServer

  datatype RemoveError = NoSuchRoom | NoSuchUser

  class LiveServer {
    const id: ServerId
    const cap: nat
    const bound: set<RoomId>
    var heap: map<RoomRef, Room>
    var rooms: map<RoomId, RoomRef>
    var handlers: map<RoomId, RoomRef>
    var userRooms: Index
    ghost var arrivals: map<nat, Arrival>

    ghost function View(): Server
      reads this
    {
      Server(id, cap, bound, heap, rooms, handlers, userRooms, arrivals)
    }

    constructor (id: ServerId, cap: nat, bound: set<RoomId>)
      ensures View() == NewServer(id, cap, bound)
    {
      this.id, this.cap, this.bound := id, cap, bound;
      heap, rooms, handlers, userRooms, arrivals := map[], map[], map[], map[], map[];
    }

    /** ref is where the new Room would be allocated. */
    method AddNewRoom(roomId: RoomId, ref: RoomRef)
      requires ref !in heap
      modifies this`heap, this`rooms, this`handlers
      ensures View() == AfterCreate(old(View()), roomId, ref)
      ensures roomId in rooms && (roomId in old(rooms) ==> rooms == old(rooms) && heap == old(heap))
    {
      if roomId in rooms {
        return;
      }
      if roomId in bound {
        handlers := handlers[roomId := ref];
      }
      heap := heap[ref := NewRoom(id, roomId, cap)];
      rooms := rooms[roomId := ref];
    }

    /** added is false when the user is already in the room. */
    method AddUserToRoom(join: Message, roomId: RoomId, x: SessionId, ref: RoomRef, ghost j: nat)
      returns (added: bool, ghost trace: seq<ServerAction>)
      requires RoomsOk(View()) && ref !in heap && j !in arrivals
      requires roomId in rooms ==> Enabled(heap[rooms[roomId]], Enter(x, join))
      modifies this
      ensures ServerRun(old(View()), trace, View())
      ensures roomId in rooms && rooms[roomId] in heap
      ensures View() == Joined(AfterCreate(old(View()), roomId, ref), rooms[roomId], join, x)
      ensures added <==> !(roomId in old(rooms) && join.userId in old(heap)[old(rooms)[roomId]].users)
      ensures added ==>
        && join.userId in heap[rooms[roomId]].users && heap[rooms[roomId]].users[join.userId] == x
        && userRooms == WithEntry(old(userRooms), join.userId, roomId)
      ensures !added ==> View() == old(View())
    {
      ghost var s := View();
      AddUserRuns(s, j, ref, join, roomId, x);
      trace := AddUserSteps(s, j, ref, join, roomId, x);
      if roomId !in rooms {
        AddNewRoom(roomId, ref);
      }
      added := EnterRoom(join, rooms[roomId], x);
      JoinedFacts(AfterCreate(s, roomId, ref), rooms[roomId], join, x);
      if roomId !in s.rooms { NobodyInNewRoom(s, roomId, ref); }
    }

    /** The part under Room.Mu. */
    method EnterRoom(join: Message, ref: RoomRef, x: SessionId) returns (added: bool)
      requires ref in heap
      modifies this`heap, this`userRooms
      ensures added <==> join.userId !in old(heap)[ref].users
      ensures View() == Joined(old(View()), ref, join, x)
    {
      var room := heap[ref];
      added := join.userId !in room.users;
      if added {
        heap := heap[ref := SetPhase(AfterEnter(room, x, join), x, Greeting).(holder := None)];
        var listed := if join.userId in userRooms then userRooms[join.userId] else [];
        userRooms := userRooms[join.userId := listed + [room.id]];
      }
    }

    /** RemoveUserFromRoom: the two errors, or the user's Send closed, the
        member deleted and one index entry removed. */
    method RemoveUserFromRoom(userId: UserId, roomId: RoomId) returns (error: Option<RemoveError>)
      requires RoomsOk(View()) && NoEmptyKeys(userRooms)
      requires roomId in rooms ==>
        forall u :: u in heap[rooms[roomId]].users ==> heap[rooms[roomId]].users[u] in heap[rooms[roomId]].sessions
      modifies this`heap, this`userRooms
      ensures error == Some(NoSuchRoom) <==> roomId !in rooms
      ensures error == Some(NoSuchUser) <==> roomId in rooms && userId !in old(heap)[rooms[roomId]].users
      ensures error.Some? ==> View() == old(View())
      ensures error == None ==>
        && heap == old(heap)[rooms[roomId] := Evict(old(heap)[rooms[roomId]], userId)]
        && userId !in heap[rooms[roomId]].users
        && userRooms == WithoutEntry(old(userRooms), userId, roomId)
    {
      if roomId !in rooms {
        return Some(NoSuchRoom);
      }
      var room := heap[rooms[roomId]];
      if userId !in room.users {
        return Some(NoSuchUser);
      }
      heap := heap[rooms[roomId] := Evict(room, userId)];
      var left := RemoveFirst(if userId in userRooms then userRooms[userId] else [], roomId);
      userRooms := if left == [] then userRooms - {userId} else userRooms[userId := left];
      return None;
    }
  }

  function AddUserSteps(s: Server, j: nat, ref: RoomRef, join: Message, roomId: RoomId, x: SessionId): seq<ServerAction>
    requires RoomsOk(s) && ref !in s.heap
  {
    var t := AfterCreate(s, roomId, ref);
    ([Arrive(j, join, roomId)] + [Lookup(j)])
    + (if roomId in s.rooms then [] else [Create(j, ref)] + [Relookup(j)])
    + (if join.userId in t.heap[t.rooms[roomId]].users then [Join(j, x)]
       else [Join(j, x)] + [InRoom(t.rooms[roomId], Indexed(x))])
  }

  lemma {:induction false} ServerRunSnoc(s: Server, acts: seq<ServerAction>, t: Server, a: ServerAction)
    requires ServerRun(s, acts, t) && ServerEnabled(t, a)
    ensures ServerRun(s, acts + [a], ServerNext(t, a))
    decreases |acts|
  {
    if acts == [] {
      assert acts + [a] == [a];
    } else {
      assert (acts + [a])[1..] == acts[1..] + [a];
      ServerRunSnoc(ServerNext(s, acts[0]), acts[1..], t, a);
    }
  }

  lemma {:induction false} ServerRunConcat(s: Server, acts: seq<ServerAction>, t: Server, more: seq<ServerAction>,
                                           u: Server)
    requires ServerRun(s, acts, t) && ServerRun(t, more, u)
    ensures ServerRun(s, acts + more, u)
    decreases |acts|
  {
    if acts == [] {
      assert acts + more == more;
    } else {
      assert (acts + more)[1..] == acts[1..] + more;
      ServerRunConcat(ServerNext(s, acts[0]), acts[1..], t, more, u);
    }
  }

  lemma TwoSteps(s: Server, a: ServerAction, t: Server, b: ServerAction, u: Server)
    requires ServerEnabled(s, a) && t == ServerNext(s, a) && ServerEnabled(t, b) && u == ServerNext(t, b)
    ensures ServerRun(s, [a] + [b], u) && ServerRun(s, [a], t)
  {
    assert ServerRun(s, [], s) && [] + [a] == [a];
    ServerRunSnoc(s, [], s, a);
    ServerRunSnoc(s, [a], t, b);
  }

  /** s with connection j at this point of AddUserToRoom. */
  function WithArrival(s: Server, j: nat, a: Arrival): Server { s.(arrivals := s.arrivals[j := a]) }

  lemma LookedUp(s: Server, j: nat, join: Message, roomId: RoomId)
    requires j !in s.arrivals
    ensures ServerRun(s, [Arrive(j, join, roomId)] + [Lookup(j)],
      WithArrival(s, j, if roomId in s.rooms then Found(join, roomId, s.rooms[roomId]) else Missing(join, roomId)))
  {
    var s1 := ServerNext(s, Arrive(j, join, roomId));
    var s2 := ServerNext(s1, Lookup(j));
    assert s2.arrivals == s.arrivals[j := s2.arrivals[j]];
    TwoSteps(s, Arrive(j, join, roomId), s1, Lookup(j), s2);
  }

  lemma CreatedAndFound(s: Server, j: nat, ref: RoomRef, join: Message, roomId: RoomId)
    requires roomId !in s.rooms && ref !in s.heap
    ensures ServerRun(WithArrival(s, j, Missing(join, roomId)), [Create(j, ref)] + [Relookup(j)],
      WithArrival(AfterCreate(s, roomId, ref), j, Found(join, roomId, ref)))
  {
    var s1 := WithArrival(s, j, Missing(join, roomId));
    var s2 := ServerNext(s1, Create(j, ref));
    var s3 := ServerNext(s2, Relookup(j));
    assert s3.arrivals == s.arrivals[j := Found(join, roomId, ref)];
    TwoSteps(s1, Create(j, ref), s2, Relookup(j), s3);
  }

  /** The server once x is in the room and indexed. */
  function Joined(s: Server, ref: RoomRef, join: Message, x: SessionId): Server {
    if ref !in s.heap || join.userId in s.heap[ref].users then s
    else
      var r := s.heap[ref];
      s.(heap := s.heap[ref := SetPhase(AfterEnter(r, x, join), x, Greeting).(holder := None)],
         userRooms := WithEntry(s.userRooms, join.userId, r.id))
  }

  lemma JoinedFacts(s: Server, ref: RoomRef, join: Message, x: SessionId)
    requires ref in s.heap
    ensures var t := Joined(s, ref, join, x);
      && t.rooms == s.rooms && ref in t.heap
      && if join.userId in s.heap[ref].users then t == s
         else
           && join.userId in t.heap[ref].users && t.heap[ref].users[join.userId] == x
           && t.userRooms == WithEntry(s.userRooms, join.userId, s.heap[ref].id)
  {}

  lemma NobodyInNewRoom(s: Server, roomId: RoomId, ref: RoomRef)
    requires roomId !in s.rooms
    ensures var t := AfterCreate(s, roomId, ref);
      && roomId in t.rooms && t.rooms[roomId] == ref
      && ref in t.heap && t.heap[ref].users == map[] && t.heap[ref].id == roomId
      && t.userRooms == s.userRooms
  {}

  lemma JoinedRuns(s: Server, j: nat, ref: RoomRef, join: Message, roomId: RoomId, x: SessionId)
    requires j !in s.arrivals && ref in s.heap && Enabled(s.heap[ref], Enter(x, join))
    ensures ServerRun(WithArrival(s, j, Found(join, roomId, ref)),
      if join.userId in s.heap[ref].users then [Join(j, x)] else [Join(j, x)] + [InRoom(ref, Indexed(x))],
      Joined(s, ref, join, x))
  {
    var s1 := WithArrival(s, j, Found(join, roomId, ref));
    var s2 := ServerNext(s1, Join(j, x));
    assert s2.arrivals == s.arrivals;
    if join.userId in s.heap[ref].users {
      assert s2.heap == s.heap && s2 == s;
      assert ServerRun(s1, [], s1) && [] + [Join(j, x)] == [Join(j, x)];
      ServerRunSnoc(s1, [], s1, Join(j, x));
    } else {
      var s3 := ServerNext(s2, InRoom(ref, Indexed(x)));
      IndexedShape(s, ref, join, x, s2);
      TwoSteps(s1, Join(j, x), s2, InRoom(ref, Indexed(x)), s3);
    }
  }

  lemma IndexedShape(s: Server, ref: RoomRef, join: Message, x: SessionId, t: Server)
    requires ref in s.heap && join.userId !in s.heap[ref].users
    requires t == s.(heap := s.heap[ref := AfterEnter(s.heap[ref], x, join)])
    ensures ServerEnabled(t, InRoom(ref, Indexed(x)))
    ensures ServerNext(t, InRoom(ref, Indexed(x))) == Joined(s, ref, join, x)
  {
    assert ServerNext(t, InRoom(ref, Indexed(x))).heap == Joined(s, ref, join, x).heap;
  }

  lemma AddUserRuns(s: Server, j: nat, ref: RoomRef, join: Message, roomId: RoomId, x: SessionId)
    requires RoomsOk(s) && ref !in s.heap && j !in s.arrivals
    requires roomId in s.rooms ==> Enabled(s.heap[s.rooms[roomId]], Enter(x, join))
    ensures var t := AfterCreate(s, roomId, ref);
      roomId in t.rooms && t.rooms[roomId] in t.heap
      && ServerRun(s, AddUserSteps(s, j, ref, join, roomId, x), Joined(t, t.rooms[roomId], join, x))
  {
    var t := AfterCreate(s, roomId, ref);
    var at := t.rooms[roomId];
    var found := WithArrival(t, j, Found(join, roomId, at));
    LookedUp(s, j, join, roomId);
    var looking := [Arrive(j, join, roomId)] + [Lookup(j)];
    var creating := if roomId in s.rooms then [] else [Create(j, ref)] + [Relookup(j)];
    if roomId in s.rooms {
      assert looking + creating == looking;
    } else {
      CreatedAndFound(s, j, ref, join, roomId);
      ServerRunConcat(s, looking, WithArrival(s, j, Missing(join, roomId)), creating, found);
    }
    JoinedRuns(t, j, at, join, roomId, x);
    var joining := if join.userId in t.heap[at].users then [Join(j, x)] else [Join(j, x)] + [InRoom(at, Indexed(x))];
    ServerRunConcat(s, looking + creating, found, joining, Joined(t, at, join, x));
  }
}
