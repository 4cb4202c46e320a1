/** One server: its rooms, how connections find or create them, and the
    UserRooms index, which is updated apart from the membership it mirrors. */
module ChatServer {
  import opened Basics
  import opened Models
  import opened RoomProtocol
  import opened RoomSafety
  import opened RoomEvolution

  // ------------------------------------------------------------------- index

  type Index = map<UserId, seq<RoomId>>

  function Entry(m: Index, u: UserId): seq<RoomId> { if u in m then m[u] else [] }

  function RemoveFirst(rooms: seq<RoomId>, room: RoomId): seq<RoomId> {
    if rooms == [] then []
    else if rooms[0] == room then rooms[1..]
    else [rooms[0]] + RemoveFirst(rooms[1..], room)
  }

  /** append(UserRooms[u], room). */
  function WithEntry(m: Index, u: UserId, room: RoomId): Index { m[u := Entry(m, u) + [room]] }

  /** removeFromUserRooms: drop the first occurrence, and the key when empty. */
  function WithoutEntry(m: Index, u: UserId, room: RoomId): Index {
    var left := RemoveFirst(Entry(m, u), room);
    if left == [] then m - {u} else m[u := left]
  }

  function Count(m: Index, u: UserId, room: RoomId): nat { multiset(Entry(m, u))[room] }

  ghost predicate NoEmptyKeys(m: Index) { forall u :: u in m ==> m[u] != [] }

  lemma {:induction false} RemoveFirstCounts(rooms: seq<RoomId>, room: RoomId, other: RoomId)
    ensures multiset(RemoveFirst(rooms, room))[other]
         == multiset(rooms)[other] - if other == room && room in rooms then 1 else 0
  {
    if rooms != [] {
      assert rooms == [rooms[0]] + rooms[1..];
      if rooms[0] != room { RemoveFirstCounts(rooms[1..], room, other); }
    }
  }

  lemma {:induction false} RemoveFirstAt(rooms: seq<RoomId>, room: RoomId, i: nat)
    requires i <= |rooms| && room !in rooms[..i] && (i < |rooms| ==> rooms[i] == room)
    ensures RemoveFirst(rooms, room) == if i < |rooms| then rooms[..i] + rooms[i + 1..] else rooms
  {
    if i > 0 {
      assert rooms[0] == rooms[..i][0];
      assert rooms[1..][..i - 1] == rooms[..i][1..];
      RemoveFirstAt(rooms[1..], room, i - 1);
    }
  }

  lemma WithEntryCounts(m: Index, u: UserId, room: RoomId, v: UserId, other: RoomId)
    requires NoEmptyKeys(m)
    ensures NoEmptyKeys(WithEntry(m, u, room))
    ensures Count(WithEntry(m, u, room), v, other) == Count(m, v, other) + if v == u && other == room then 1 else 0
  {}

  lemma WithoutEntryCounts(m: Index, u: UserId, room: RoomId, v: UserId, other: RoomId)
    requires NoEmptyKeys(m) && Count(m, u, room) > 0
    ensures NoEmptyKeys(WithoutEntry(m, u, room))
    ensures Count(WithoutEntry(m, u, room), v, other) == Count(m, v, other) - if v == u && other == room then 1 else 0
  {
    RemoveFirstCounts(Entry(m, u), room, other);
  }

  /** The index as the server keeps it. */
  class UserIndex {
    var userRooms: Index

    constructor ()
      ensures userRooms == map[]
    { userRooms := map[]; }

    method Append(u: UserId, room: RoomId)
      modifies this
      ensures userRooms == WithEntry(old(userRooms), u, room)
    {
      userRooms := userRooms[u := (if u in userRooms then userRooms[u] else []) + [room]];
    }

    /** Go slices rooms[:i] and rooms[i+1:] together over the same array. */
    method RemoveFromUserRooms(u: UserId, room: RoomId)
      requires NoEmptyKeys(userRooms)
      modifies this
      ensures userRooms == WithoutEntry(old(userRooms), u, room)
      ensures NoEmptyKeys(userRooms)
    {
      var rooms := if u in userRooms then userRooms[u] else [];
      var i := 0;
      while i < |rooms| && rooms[i] != room
        invariant 0 <= i <= |rooms|
        invariant room !in rooms[..i]
      {
        i := i + 1;
      }
      RemoveFirstAt(rooms, room, i);
      if i < |rooms| {
        userRooms := userRooms[u := rooms[..i] + rooms[i + 1..]];
      }
      if u !in userRooms || userRooms[u] == [] {
        userRooms := userRooms - {u};
      }
    }
  }

  // ----------------------------------------------------------------- machine

  type RoomRef = nat

  /** A connection that has sent its JOIN and is inside AddUserToRoom. */
  datatype Arrival =
    | LookingUp(join: Message, roomId: RoomId)
    | Missing(join: Message, roomId: RoomId)
    | Created(join: Message, roomId: RoomId)
    | Found(join: Message, roomId: RoomId, ref: RoomRef)
    | NilRoom(join: Message, roomId: RoomId)        // would dereference a nil *Room

  datatype Server = Server(
    id: ServerId,
    cap: nat,
    bound: set<RoomId>,                  // room ids this server has a queue and consumer for
    heap: map<RoomRef, Room>,
    rooms: map<RoomId, RoomRef>,
    handlers: map<RoomId, RoomRef>,      // whose Broadcast a consumer feeds
    userRooms: Index,
    arrivals: map<nat, Arrival>)

  function NewServer(id: ServerId, cap: nat, bound: set<RoomId>): Server {
    Server(id, cap, bound, map[], map[], map[], map[], map[])
  }

  datatype ServerAction =
    | Arrive(j: nat, join: Message, roomId: RoomId)
    | Lookup(j: nat)
    | Create(j: nat, ref: RoomRef)
    | Relookup(j: nat)
    | Join(j: nat, x: SessionId)
    | InRoom(ref: RoomRef, act: Action)

  predicate ServerEnabled(s: Server, a: ServerAction) {
    match a
    case Arrive(j, _, _) => j !in s.arrivals
    case Lookup(j) => j in s.arrivals && s.arrivals[j].LookingUp?
    case Create(j, ref) => j in s.arrivals && s.arrivals[j].Missing? && ref !in s.heap
    case Relookup(j) => j in s.arrivals && s.arrivals[j].Created?
    case Join(j, x) =>
      && j in s.arrivals && s.arrivals[j].Found? && s.arrivals[j].ref in s.heap
      && Enabled(s.heap[s.arrivals[j].ref], Enter(x, s.arrivals[j].join))
    case InRoom(ref, act) => ref in s.heap && !act.Enter? && Enabled(s.heap[ref], act)
  }

  /** The update of UserRooms that goes with a room's step. */
  function IndexAfter(m: Index, r: Room, a: Action): Index {
    match a
    case Indexed(x) => if x in r.sessions then WithEntry(m, r.sessions[x].user, r.id) else m
    case Unindexed(x) => if x in r.sessions then WithoutEntry(m, r.sessions[x].user, r.id) else m
    case Unlist => if r.loop.Unlisting? then WithoutEntry(m, r.loop.user, r.id) else m
    case _ => m
  }

  /** AddNewRoom, under Server.Mu: nothing if the room exists. */
  function AfterCreate(s: Server, roomId: RoomId, ref: RoomRef): Server {
    if roomId in s.rooms then s
    else
      s.(heap := s.heap[ref := NewRoom(s.id, roomId, s.cap)],
         rooms := s.rooms[roomId := ref],
         handlers := if roomId in s.bound then s.handlers[roomId := ref] else s.handlers)
  }

  function InRoomAfter(s: Server, ref: RoomRef, a: Action): Server
    requires ref in s.heap && Enabled(s.heap[ref], a)
  {
    s.(heap := s.heap[ref := Next(s.heap[ref], a)], userRooms := IndexAfter(s.userRooms, s.heap[ref], a))
  }

  function ServerNext(s: Server, a: ServerAction): Server
    requires ServerEnabled(s, a)
  {
    match a
    case Arrive(j, join, roomId) => s.(arrivals := s.arrivals[j := LookingUp(join, roomId)])
    case Lookup(j) =>
      var r := s.arrivals[j];
      s.(arrivals := s.arrivals[j := if r.roomId in s.rooms then Found(r.join, r.roomId, s.rooms[r.roomId])
                                     else Missing(r.join, r.roomId)])
    case Create(j, ref) =>
      var r := s.arrivals[j];
      AfterCreate(s, r.roomId, ref).(arrivals := s.arrivals[j := Created(r.join, r.roomId)])
    case Relookup(j) =>
      var r := s.arrivals[j];
      s.(arrivals := s.arrivals[j := if r.roomId in s.rooms then Found(r.join, r.roomId, s.rooms[r.roomId])
                                     else NilRoom(r.join, r.roomId)])
    case Join(j, x) =>
      InRoomAfter(s, s.arrivals[j].ref, Enter(x, s.arrivals[j].join)).(arrivals := s.arrivals - {j})
    case InRoom(ref, act) => InRoomAfter(s, ref, act)
  }

  ghost predicate ServerRun(s: Server, acts: seq<ServerAction>, t: Server)
    decreases |acts|
  {
    if acts == [] then s == t
    else ServerEnabled(s, acts[0]) && ServerRun(ServerNext(s, acts[0]), acts[1..], t)
  }

  // -------------------------------------------------------------- invariants

  /** r is where some run of the room protocol leads. */
  ghost predicate Reached(r: Room) {
    exists acts :: Run(NewRoom(r.server, r.id, r.cap), acts, r)
  }

  /** Rooms and room ids correspond one to one, also for those still arriving. */
  ghost predicate RoomsOk(s: Server) {
    && (forall ref :: ref in s.heap ==>
          s.heap[ref].id in s.rooms && s.rooms[s.heap[ref].id] == ref
          && s.heap[ref].server == s.id && s.heap[ref].cap == s.cap)
    && (forall id :: id in s.rooms ==> s.rooms[id] in s.heap && s.heap[s.rooms[id]].id == id)
    && (forall id :: id in s.handlers ==> id in s.rooms && s.handlers[id] == s.rooms[id])
    && (forall j :: j in s.arrivals ==>
          var a := s.arrivals[j];
          && !a.NilRoom?
          && (a.Created? || a.Found? ==> a.roomId in s.rooms)
          && (a.Found? ==> s.rooms[a.roomId] == a.ref))
  }

  ghost predicate RoomsReached(s: Server) { forall ref :: ref in s.heap ==> Reached(s.heap[ref]) }

  /** u is in Users, its index entry still to be appended. */
  function Appending(r: Room, u: UserId): nat {
    if r.holder.Some? && r.holder.value in r.sessions && r.sessions[r.holder.value].phase.Indexing?
       && r.sessions[r.holder.value].user == u then 1 else 0
  }

  /** Removals of u that have deleted the member and not yet the index entry:
      one by the goroutine, one by a fallback that holds Room.Mu. */
  function Dropping(r: Room, u: UserId): nat {
    (if r.loop.Unlisting? && r.loop.user == u then 1 else 0)
    + (if r.holder.Some? && r.holder.value in r.sessions && r.sessions[r.holder.value].phase.Unindexing?
          && r.sessions[r.holder.value].user == u then 1 else 0)
  }

  function Listed(r: Room, u: UserId): int {
    (if u in r.users then 1 else 0) + Dropping(r, u) - Appending(r, u)
  }

  ghost predicate IndexOk(s: Server) {
    && NoEmptyKeys(s.userRooms)
    && (forall u, id :: id in s.rooms && s.rooms[id] in s.heap ==>
          Count(s.userRooms, u, id) == Listed(s.heap[s.rooms[id]], u))
    && (forall u, id :: id !in s.rooms ==> Count(s.userRooms, u, id) == 0)
  }

  ghost predicate ServerOk(s: Server) { RoomsOk(s) && RoomsReached(s) && IndexOk(s) }

  // ------------------------------------------------------------ preservation

  lemma ReachedSafe(r: Room)
    requires Reached(r)
    ensures Safe(r)
  {
    var acts :| Run(NewRoom(r.server, r.id, r.cap), acts, r);
    SafeFromStart(r.server, r.id, r.cap, acts, r);
  }

  lemma ReachedKept(r: Room, a: Action)
    requires Reached(r) && Enabled(r, a)
    ensures Reached(Next(r, a)) && RoomEvolves(r, Next(r, a))
  {
    ReachedSafe(r);
    if a.Schedule? { assert PhaseOk(r.sessions[a.x]); }
    SessionsEvolve(r, a);
    var acts :| Run(NewRoom(r.server, r.id, r.cap), acts, r);
    RunSnoc(NewRoom(r.server, r.id, r.cap), acts, r, a);
  }

  /** How a room's step changes what the index owes it. */
  function IndexDelta(r: Room, a: Action, u: UserId): int {
    match a
    case Indexed(x) => if x in r.sessions && r.sessions[x].user == u then 1 else 0
    case Unindexed(x) => if x in r.sessions && r.sessions[x].user == u then -1 else 0
    case Unlist => if r.loop.Unlisting? && r.loop.user == u then -1 else 0
    case _ => 0
  }

  lemma ListedKeptByHandlers(r: Room, a: Action, u: UserId)
    requires Safe(r) && Enabled(r, a) && (a.Enter? || a.Indexed? || a.Unindexed? || a.RemoveDirect?)
    ensures Listed(Next(r, a), u) == Listed(r, u) + IndexDelta(r, a, u)
  {
    if a.Enter? {
      EnterListed(r, a.x, a.join, u);
    } else if a.RemoveDirect? {
      RemoveDirectListed(r, a.x, u);
    } else {
      ReleaseListed(r, a, u);
    }
  }

  lemma EnterListed(r: Room, x: SessionId, join: Message, u: UserId)
    requires Members(r) && Locks(r) && LockFree(r) && x !in r.sessions
    ensures Listed(AfterEnter(r, x, join), u) == Listed(r, u)
  {}

  lemma RemoveDirectListed(r: Room, x: SessionId, u: UserId)
    requires Safe(r) && LockFree(r) && At(r, x, FallingBack)
    ensures Listed(AfterRemoveDirect(r, x), u) == Listed(r, u)
  {
    FallbackFindsItsSession(r, x);
  }

  lemma ReleaseListed(r: Room, a: Action, u: UserId)
    requires Locks(r) && Enabled(r, a) && (a.Indexed? || a.Unindexed?)
    ensures Listed(Next(r, a), u) == Listed(r, u) + IndexDelta(r, a, u)
  {
    assert r.holder == Some(a.x);
  }

  /** Nothing Listed looks at differs. */
  ghost predicate SameListing(r: Room, t: Room) {
    && t.users == r.users && t.holder == r.holder
    && t.loop.Unlisting? == r.loop.Unlisting? && (r.loop.Unlisting? ==> t.loop == r.loop)
    && (r.holder.Some? && r.holder.value in r.sessions ==>
          var s := r.sessions[r.holder.value];
          r.holder.value in t.sessions
          && t.sessions[r.holder.value].phase == s.phase && t.sessions[r.holder.value].user == s.user)
  }

  lemma SayListing(r: Room, x: SessionId, m: Message, leaving: bool, created: string, stamped: string)
    requires x in r.sessions && r.holder != Some(x)
    ensures SameListing(r, Say(r, x, m, leaving, created, stamped))
  {}

  lemma HearListing(r: Room, x: SessionId, input: Input, created: string, stamped: string)
    requires Locks(r) && At(r, x, Reading)
    ensures SameListing(r, AfterHear(r, x, input, created, stamped))
  {
    match Reaction(r.sessions[x], input)
    case None =>
    case Some((m, leaving)) =>
      if leaving {
        SayListing(r, x, m, leaving, created, stamped);
      } else {
        SayListing(CountText(r, x), x, m, leaving, created, stamped);
      }
  }

  lemma WritingListing(r: Room, a: Action)
    requires Locks(r) && Enabled(r, a) && OfWriter(a)
    ensures SameListing(r, Next(r, a))
  {}

  lemma MovingListing(r: Room, a: Action)
    requires Locks(r) && Enabled(r, a) && (a.Handoff? || a.Schedule? || a.Remote? || a.Cancel? || a.Depart?)
    ensures SameListing(r, Next(r, a))
  {}

  lemma FanOneListing(r: Room, u: UserId)
    requires r.loop.Fanning?
    ensures SameListing(r, AfterFanOne(r, u))
  {}

  lemma CloseOneListing(r: Room, u: UserId)
    requires r.loop.Closing?
    ensures SameListing(r, AfterCloseOne(r, u))
  {}

  lemma ProcessListing(r: Room, u: UserId)
    requires Safe(r) && Enabled(r, Process)
    ensures Listed(AfterProcess(r), u) == Listed(r, u)
  {
    if Removal(r.loop.event) { HeldRemovalFindsItsSession(r); }
  }

  lemma SameListingKeeps(r: Room, t: Room, u: UserId)
    requires Locks(r) && SameListing(r, t)
    ensures Listed(t, u) == Listed(r, u)
  {}

  predicate TouchesListing(a: Action) {
    a.Enter? || a.Indexed? || a.Unindexed? || a.RemoveDirect? || a.Process? || a.Unlist?
  }

  lemma ListingUntouched(r: Room, a: Action)
    requires Locks(r) && Enabled(r, a) && !TouchesListing(a)
    ensures SameListing(r, Next(r, a))
  {
    if a.Greet? {
      SayListing(r, a.x, r.sessions[a.x].join, false, a.created, a.stamped);
    } else if a.Hear? {
      HearListing(r, a.x, a.input, a.created, a.stamped);
    } else if OfWriter(a) {
      WritingListing(r, a);
    } else if a.FanOne? {
      FanOneListing(r, a.u);
    } else if a.CloseOne? {
      CloseOneListing(r, a.u);
    } else if !OfLoop(a) {
      MovingListing(r, a);
    }
  }

  lemma ListedKept(r: Room, a: Action, u: UserId)
    requires Safe(r) && Enabled(r, a)
    ensures Listed(Next(r, a), u) == Listed(r, u) + IndexDelta(r, a, u)
  {
    if a.Process? {
      ProcessListing(r, u);
    } else if a.Unlist? {
      UnlistListing(r, u);
    } else if TouchesListing(a) {
      ListedKeptByHandlers(r, a, u);
    } else {
      ListingUntouched(r, a);
      SameListingKeeps(r, Next(r, a), u);
    }
  }

  lemma UnlistListing(r: Room, u: UserId)
    requires Enabled(r, Unlist)
    ensures Listed(Next(r, Unlist), u) == Listed(r, u) + IndexDelta(r, Unlist, u)
  {}

  /** The index update of a removal finds the entry it removes. */
  lemma IndexUpdateFindsEntry(s: Server, ref: RoomRef, a: Action)
    requires ServerOk(s) && ref in s.heap && Enabled(s.heap[ref], a) && (a.Unindexed? || a.Unlist?)
    ensures var r := s.heap[ref];
            var u := if a.Unlist? then r.loop.user else r.sessions[a.x].user;
            Count(s.userRooms, u, r.id) > 0
  {
    var r := s.heap[ref];
    var u := if a.Unlist? then r.loop.user else r.sessions[a.x].user;
    ReachedSafe(r);
    assert s.rooms[r.id] == ref;
    if Appending(r, u) > 0 { assert PhaseOk(r.sessions[r.holder.value]); }
    assert Count(s.userRooms, u, r.id) == Listed(r, u);
  }

  /** The index changes by what the room's step owes it. */
  ghost predicate IndexMoves(m: Index, r: Room, a: Action) {
    forall u, id ::
      Count(IndexAfter(m, r, a), u, id) == Count(m, u, id) + (if id == r.id then IndexDelta(r, a, u) else 0)
  }

  lemma IndexAfterMoves(m: Index, r: Room, a: Action)
    requires NoEmptyKeys(m)
    requires a.Indexed? || a.Unindexed? ==> a.x in r.sessions
    requires a.Unindexed? ==> Count(m, r.sessions[a.x].user, r.id) > 0
    requires a.Unlist? ==> r.loop.Unlisting? && Count(m, r.loop.user, r.id) > 0
    ensures NoEmptyKeys(IndexAfter(m, r, a)) && IndexMoves(m, r, a)
  {
    if a.Indexed? {
      WithEntryMoves(m, r.sessions[a.x].user, r.id);
      MovesAdding(m, r, a, r.sessions[a.x].user);
    } else if a.Unindexed? || a.Unlist? {
      var u := if a.Unlist? then r.loop.user else r.sessions[a.x].user;
      WithoutEntryMoves(m, u, r.id);
      MovesRemoving(m, r, a, u);
    }
  }

  lemma MovesAdding(m: Index, r: Room, a: Action, u: UserId)
    requires a.Indexed? && a.x in r.sessions && u == r.sessions[a.x].user
    requires forall v, other ::
      Count(WithEntry(m, u, r.id), v, other) == Count(m, v, other) + (if v == u && other == r.id then 1 else 0)
    ensures IndexMoves(m, r, a)
  {}

  lemma MovesRemoving(m: Index, r: Room, a: Action, u: UserId)
    requires (a.Unindexed? && a.x in r.sessions && u == r.sessions[a.x].user) || (a.Unlist? && r.loop == Unlisting(u))
    requires forall v, other ::
      Count(WithoutEntry(m, u, r.id), v, other) == Count(m, v, other) - (if v == u && other == r.id then 1 else 0)
    ensures IndexMoves(m, r, a)
  {}

  lemma WithEntryMoves(m: Index, u: UserId, room: RoomId)
    requires NoEmptyKeys(m)
    ensures NoEmptyKeys(WithEntry(m, u, room))
    ensures forall v, other ::
      Count(WithEntry(m, u, room), v, other) == Count(m, v, other) + (if v == u && other == room then 1 else 0)
  {
    WithEntryCounts(m, u, room, u, room);
    forall v, other { WithEntryCounts(m, u, room, v, other); }
  }

  lemma WithoutEntryMoves(m: Index, u: UserId, room: RoomId)
    requires NoEmptyKeys(m) && Count(m, u, room) > 0
    ensures NoEmptyKeys(WithoutEntry(m, u, room))
    ensures forall v, other ::
      Count(WithoutEntry(m, u, room), v, other) == Count(m, v, other) - (if v == u && other == room then 1 else 0)
  {
    WithoutEntryCounts(m, u, room, u, room);
    forall v, other { WithoutEntryCounts(m, u, room, v, other); }
  }

  lemma InRoomIndex(s: Server, ref: RoomRef, a: Action)
    requires ServerOk(s) && ref in s.heap && Enabled(s.heap[ref], a)
    ensures NoEmptyKeys(IndexAfter(s.userRooms, s.heap[ref], a)) && IndexMoves(s.userRooms, s.heap[ref], a)
  {
    if a.Unindexed? || a.Unlist? { IndexUpdateFindsEntry(s, ref, a); }
    IndexAfterMoves(s.userRooms, s.heap[ref], a);
  }

  lemma InRoomRoomsOk(s: Server, ref: RoomRef, a: Action)
    requires RoomsOk(s) && RoomsReached(s) && ref in s.heap && Enabled(s.heap[ref], a)
    ensures RoomsOk(InRoomAfter(s, ref, a)) && RoomsReached(InRoomAfter(s, ref, a))
  {
    ReachedKept(s.heap[ref], a);
  }

  lemma InRoomOk(s: Server, ref: RoomRef, a: Action)
    requires ServerOk(s) && ref in s.heap && Enabled(s.heap[ref], a)
    ensures ServerOk(InRoomAfter(s, ref, a))
  {
    InRoomRoomsOk(s, ref, a);
    InRoomIndex(s, ref, a);
    ReachedSafe(s.heap[ref]);
    InRoomIndexOk(s, ref, a);
  }

  lemma InRoomIndexOk(s: Server, ref: RoomRef, a: Action)
    requires RoomsOk(s) && IndexOk(s) && ref in s.heap && Enabled(s.heap[ref], a) && Safe(s.heap[ref])
    requires NoEmptyKeys(IndexAfter(s.userRooms, s.heap[ref], a))
    requires IndexMoves(s.userRooms, s.heap[ref], a)
    ensures IndexOk(InRoomAfter(s, ref, a))
  {
    forall u ensures Listed(Next(s.heap[ref], a), u) == Listed(s.heap[ref], u) + IndexDelta(s.heap[ref], a, u) {
      ListedKept(s.heap[ref], a, u);
    }
    IndexFollows(s, InRoomAfter(s, ref, a), ref, a);
  }

  /** The index and one room have moved together. */
  lemma IndexFollows(s: Server, t: Server, ref: RoomRef, a: Action)
    requires RoomsOk(s) && IndexOk(s) && ref in s.heap && ref in t.heap
    requires t.rooms == s.rooms && t.heap == s.heap[ref := t.heap[ref]]
    requires t.userRooms == IndexAfter(s.userRooms, s.heap[ref], a)
    requires NoEmptyKeys(t.userRooms) && IndexMoves(s.userRooms, s.heap[ref], a)
    requires forall u :: Listed(t.heap[ref], u) == Listed(s.heap[ref], u) + IndexDelta(s.heap[ref], a, u)
    ensures IndexOk(t)
  {
    forall u, id | id in t.rooms && t.rooms[id] in t.heap
      ensures Count(t.userRooms, u, id) == Listed(t.heap[t.rooms[id]], u)
    {
      assert Count(s.userRooms, u, id) == Listed(s.heap[s.rooms[id]], u);
    }
  }

  lemma CreateIndexOk(s: Server, roomId: RoomId, ref: RoomRef)
    requires RoomsOk(s) && IndexOk(s) && ref !in s.heap
    ensures IndexOk(AfterCreate(s, roomId, ref))
  {
    if roomId !in s.rooms {
      var t := AfterCreate(s, roomId, ref);
      forall u ensures Count(t.userRooms, u, roomId) == Listed(t.heap[t.rooms[roomId]], u) {}
    }
  }

  lemma CreateRoomsOk(s: Server, roomId: RoomId, ref: RoomRef)
    requires RoomsOk(s) && ref !in s.heap && roomId !in s.rooms
    ensures RoomsOk(AfterCreate(s, roomId, ref))
  {}

  lemma CreateReached(s: Server, roomId: RoomId, ref: RoomRef)
    requires RoomsReached(s)
    ensures RoomsReached(AfterCreate(s, roomId, ref))
  {
    var r := NewRoom(s.id, roomId, s.cap);
    assert Run(r, [], r);
  }

  lemma CreateOk(s: Server, roomId: RoomId, ref: RoomRef)
    requires ServerOk(s) && ref !in s.heap
    ensures ServerOk(AfterCreate(s, roomId, ref)) && roomId in AfterCreate(s, roomId, ref).rooms
  {
    if roomId !in s.rooms {
      CreateIndexOk(s, roomId, ref);
      CreateRoomsOk(s, roomId, ref);
      CreateReached(s, roomId, ref);
    }
  }

  /** Arriving connections change nothing else. */
  lemma ArrivalOk(s: Server, j: nat, a: Arrival)
    requires ServerOk(s) && !a.NilRoom?
    requires a.Created? || a.Found? ==> a.roomId in s.rooms
    requires a.Found? ==> a.ref == s.rooms[a.roomId]
    ensures ServerOk(s.(arrivals := s.arrivals[j := a]))
  {}

  lemma GoneOk(s: Server, j: nat)
    requires ServerOk(s)
    ensures ServerOk(s.(arrivals := s.arrivals - {j}))
  {}

  lemma ServerOkKept(s: Server, a: ServerAction)
    requires ServerOk(s) && ServerEnabled(s, a)
    ensures ServerOk(ServerNext(s, a))
  {
    if a.InRoom? {
      InRoomOk(s, a.ref, a.act);
    } else if a.Join? {
      JoinKeepsOk(s, a.j, a.x);
    } else if a.Create? {
      var r := s.arrivals[a.j];
      CreateOk(s, r.roomId, a.ref);
      ArrivalOk(AfterCreate(s, r.roomId, a.ref), a.j, Created(r.join, r.roomId));
    } else {
      ArrivalOk(s, a.j, ServerNext(s, a).arrivals[a.j]);
    }
  }

  lemma JoinKeepsOk(s: Server, j: nat, x: SessionId)
    requires ServerOk(s) && ServerEnabled(s, Join(j, x))
    ensures ServerOk(ServerNext(s, Join(j, x)))
  {
    var r := s.arrivals[j];
    InRoomOk(s, r.ref, Enter(x, r.join));
    GoneOk(InRoomAfter(s, r.ref, Enter(x, r.join)), j);
  }

  lemma {:induction false} ServerOkAlways(s: Server, acts: seq<ServerAction>, t: Server)
    requires ServerOk(s) && ServerRun(s, acts, t)
    ensures ServerOk(t)
    decreases |acts|
  {
    if acts != [] {
      ServerOkKept(s, acts[0]);
      ServerOkAlways(ServerNext(s, acts[0]), acts[1..], t);
    }
  }

  // ------------------------------------------------------------- main results

  lemma ServerOkFromStart(id: ServerId, cap: nat, bound: set<RoomId>, acts: seq<ServerAction>, s: Server)
    requires ServerRun(NewServer(id, cap, bound), acts, s)
    ensures ServerOk(s)
  {
    assert ServerOk(NewServer(id, cap, bound));
    ServerOkAlways(NewServer(id, cap, bound), acts, s);
  }

  /** One Room per room id, whatever joiners race: the room a connection ends
      up with is the one in Rooms, never nil, and consumers feed that room. */
  lemma OneRoomPerId(id: ServerId, cap: nat, bound: set<RoomId>, acts: seq<ServerAction>, s: Server)
    requires ServerRun(NewServer(id, cap, bound), acts, s)
    ensures forall a, b :: a in s.heap && b in s.heap && s.heap[a].id == s.heap[b].id ==> a == b
    ensures forall j :: j in s.arrivals ==> !s.arrivals[j].NilRoom?
    ensures forall j :: j in s.arrivals && s.arrivals[j].Found? ==>
              s.arrivals[j].ref in s.heap && s.heap[s.arrivals[j].ref].id == s.arrivals[j].roomId
    ensures forall r :: r in s.handlers ==> r in s.rooms && s.handlers[r] == s.rooms[r]
    ensures forall ref :: ref in s.heap ==> Reached(s.heap[ref])
  {
    ServerOkFromStart(id, cap, bound, acts, s);
  }

  /** Index agreement in every reachable state: u is listed for a room as often
      as it is a member, plus once per removal caught between deleting the
      member and updating the index, minus once while its own joining is caught
      between the two; and no key has an empty list. */
  lemma IndexAgreesWithMembership(id: ServerId, cap: nat, bound: set<RoomId>, acts: seq<ServerAction>, s: Server,
                                  u: UserId, room: RoomId)
    requires ServerRun(NewServer(id, cap, bound), acts, s)
    ensures room !in s.rooms ==> Count(s.userRooms, u, room) == 0
    ensures room in s.rooms ==>
              s.rooms[room] in s.heap && Count(s.userRooms, u, room) == Listed(s.heap[s.rooms[room]], u)
    ensures u in s.userRooms <==> Entry(s.userRooms, u) != []
  {
    ServerOkFromStart(id, cap, bound, acts, s);
  }

  /** Every index update of a removal finds the entry it is to remove. */
  lemma IndexUpdateNeverMisses(id: ServerId, cap: nat, bound: set<RoomId>, acts: seq<ServerAction>, s: Server,
                             ref: RoomRef, a: Action)
    requires ServerRun(NewServer(id, cap, bound), acts, s)
    requires ServerEnabled(s, InRoom(ref, a)) && (a.Unindexed? || a.Unlist?)
    ensures var u := if a.Unlist? then s.heap[ref].loop.user else s.heap[ref].sessions[a.x].user;
            s.heap[ref].id in Entry(s.userRooms, u)
  {
    ServerOkFromStart(id, cap, bound, acts, s);
    IndexUpdateFindsEntry(s, ref, a);
  }
}
