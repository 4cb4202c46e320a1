/** The server's locks: any number of goroutines, each running any sequence of
    the server's critical sections over any number of rooms, under Go's
    writer-preferring RWMutex. */
module Locks {
  import opened Basics

  datatype Lock = ServerMu | RoomMu(room: RoomId) | HandlersMu | UserRoomMu

  function Rank(l: Lock): nat {
    match l
    case ServerMu => 0
    case RoomMu(_) => 1
    case HandlersMu => 1
    case UserRoomMu => 2
  }

  datatype Op =
    | ReadLock(lock: Lock)
    | ReadUnlock(lock: Lock)
    | WriteLock(lock: Lock)
    | WriteUnlock(lock: Lock)
    | Block                       // a channel operation or I/O that may wait forever

  // ------------------------------------------------------ the source's sections

  datatype Section =
    | Waiting                                             // a channel operation or I/O
    | AddNewRoom(known: bool, bound: bool)                // bound: a consumer exists for the room
    | AddUserToRoom(room: RoomId, known: bool, bound: bool, racing: bool, taken: bool)
    | RemoveFromUserRooms
    | RemoveUserFromRoom(room: RoomId, known: bool, member: bool)
    | FanOut(room: RoomId)
    | QueuedRemoval(room: RoomId, member: bool)
    | CloseRoom(room: RoomId)
    | Metrics(rooms: seq<RoomId>)
    | Monitor(rooms: seq<RoomId>)                         // also the shutdown watcher
    | RouteDelivery                                       // a consumer looks its handler up

  function Exclusive(l: Lock, inside: seq<Op>): seq<Op> { [WriteLock(l)] + inside + [WriteUnlock(l)] }

  function Shared(l: Lock, inside: seq<Op>): seq<Op> { [ReadLock(l)] + inside + [ReadUnlock(l)] }

  function RoomReads(rooms: seq<RoomId>): seq<Op> {
    if rooms == [] then [] else Shared(RoomMu(rooms[0]), []) + RoomReads(rooms[1..])
  }

  function AddingRoom(known: bool, bound: bool): seq<Op> {
    Exclusive(ServerMu, if !known && bound then Exclusive(HandlersMu, []) else [])
  }

  function IndexUpdate(used: bool): seq<Op> { if used then Exclusive(UserRoomMu, []) else [] }

  function Script(c: Section): seq<Op> {
    match c
    case Waiting => [Block]
    case AddNewRoom(known, bound) => AddingRoom(known, bound)
    case AddUserToRoom(room, known, bound, racing, taken) =>
      Shared(ServerMu, [])
      + (if known then [] else AddingRoom(racing, bound) + Shared(ServerMu, []))
      + Exclusive(RoomMu(room), IndexUpdate(!taken))
    case RemoveFromUserRooms => IndexUpdate(true)
    case RemoveUserFromRoom(room, known, member) =>
      Shared(ServerMu, [])
      + (if known then Exclusive(RoomMu(room), IndexUpdate(member)) else [])
    case FanOut(room) => [Block] + Shared(RoomMu(room), [])
    case QueuedRemoval(room, member) =>
      [Block] + Exclusive(RoomMu(room), []) + IndexUpdate(member)
    case CloseRoom(room) => [Block] + Exclusive(RoomMu(room), [])
    case Metrics(rooms) => Shared(ServerMu, RoomReads(rooms)) + Shared(UserRoomMu, [])
    case Monitor(rooms) => [Block] + Shared(ServerMu, RoomReads(rooms))
    case RouteDelivery => [Block] + Shared(HandlersMu, [])
  }

  function Program(sections: seq<Section>): seq<Op> {
    if sections == [] then [] else Script(sections[0]) + Program(sections[1..])
  }

  // ------------------------------------------------------------- lock ordering

  predicate Above(l: Lock, held: set<Lock>) { forall k :: k in held ==> Rank(k) < Rank(l) }

  /** From locks held, the operations take locks upward only, release what they
      hold, block holding nothing, and end holding nothing. */
  predicate Ordered(ops: seq<Op>, shared: set<Lock>, owned: set<Lock>) {
    if ops == [] then shared == {} && owned == {}
    else
      match ops[0]
      case ReadLock(l) => Above(l, shared + owned) && Ordered(ops[1..], shared + {l}, owned)
      case ReadUnlock(l) => l in shared && Ordered(ops[1..], shared - {l}, owned)
      case WriteLock(l) => Above(l, shared + owned) && Ordered(ops[1..], shared, owned + {l})
      case WriteUnlock(l) => l in owned && Ordered(ops[1..], shared, owned - {l})
      case Block => shared == {} && owned == {} && Ordered(ops[1..], {}, {})
  }

  /** Operations that may stand in front of anything that is ordered. */
  lemma {:induction false} SharedOrdered(l: Lock, inside: seq<Op>, rest: seq<Op>, shared: set<Lock>, owned: set<Lock>)
    requires Above(l, shared + owned)
    requires Ordered(inside + ([ReadUnlock(l)] + rest), shared + {l}, owned)
    ensures Ordered(Shared(l, inside) + rest, shared, owned)
  {
    var ops := Shared(l, inside) + rest;
    assert ops[1..] == inside + ([ReadUnlock(l)] + rest);
  }

  lemma {:induction false} ExclusiveOrdered(l: Lock, inside: seq<Op>, rest: seq<Op>, shared: set<Lock>,
                                            owned: set<Lock>)
    requires Above(l, shared + owned)
    requires Ordered(inside + ([WriteUnlock(l)] + rest), shared, owned + {l})
    ensures Ordered(Exclusive(l, inside) + rest, shared, owned)
  {
    var ops := Exclusive(l, inside) + rest;
    assert ops[1..] == inside + ([WriteUnlock(l)] + rest);
  }

  lemma UnlockReadOrdered(l: Lock, rest: seq<Op>, shared: set<Lock>, owned: set<Lock>)
    requires l !in shared && Ordered(rest, shared, owned)
    ensures Ordered([ReadUnlock(l)] + rest, shared + {l}, owned)
  {
    assert ([ReadUnlock(l)] + rest)[1..] == rest;
    assert shared + {l} - {l} == shared;
  }

  lemma UnlockWriteOrdered(l: Lock, rest: seq<Op>, shared: set<Lock>, owned: set<Lock>)
    requires l !in owned && Ordered(rest, shared, owned)
    ensures Ordered([WriteUnlock(l)] + rest, shared, owned + {l})
  {
    assert ([WriteUnlock(l)] + rest)[1..] == rest;
    assert owned + {l} - {l} == owned;
  }

  /** A leaf section: one lock taken and released at once. */
  lemma LeafShared(l: Lock, rest: seq<Op>, shared: set<Lock>, owned: set<Lock>)
    requires Above(l, shared + owned) && Ordered(rest, shared, owned)
    ensures Ordered(Shared(l, []) + rest, shared, owned)
  {
    UnlockReadOrdered(l, rest, shared, owned);
    assert [] + ([ReadUnlock(l)] + rest) == [ReadUnlock(l)] + rest;
    SharedOrdered(l, [], rest, shared, owned);
  }

  lemma LeafExclusive(l: Lock, rest: seq<Op>, shared: set<Lock>, owned: set<Lock>)
    requires Above(l, shared + owned) && Ordered(rest, shared, owned)
    ensures Ordered(Exclusive(l, []) + rest, shared, owned)
  {
    UnlockWriteOrdered(l, rest, shared, owned);
    assert [] + ([WriteUnlock(l)] + rest) == [WriteUnlock(l)] + rest;
    ExclusiveOrdered(l, [], rest, shared, owned);
  }

  /** A section around an optional leaf. */
  lemma AroundExclusive(l: Lock, inner: Lock, used: bool, rest: seq<Op>)
    requires Rank(l) < Rank(inner) && Ordered(rest, {}, {})
    ensures Ordered(Exclusive(l, if used then Exclusive(inner, []) else []) + rest, {}, {})
  {
    var tail := [WriteUnlock(l)] + rest;
    UnlockWriteOrdered(l, rest, {}, {});
    assert {} + {l} == {l};
    if used {
      LeafExclusive(inner, tail, {}, {l});
      ExclusiveOrdered(l, Exclusive(inner, []), rest, {}, {});
    } else {
      LeafExclusive(l, rest, {}, {});
    }
  }

  /** However many rooms are read under ServerMu. */
  lemma {:induction false} RoomReadsOrdered(rooms: seq<RoomId>, rest: seq<Op>)
    requires Ordered(rest, {ServerMu}, {})
    ensures Ordered(RoomReads(rooms) + rest, {ServerMu}, {})
  {
    if rooms == [] {
      assert RoomReads(rooms) + rest == rest;
    } else {
      RoomReadsOrdered(rooms[1..], rest);
      LeafShared(RoomMu(rooms[0]), RoomReads(rooms[1..]) + rest, {ServerMu}, {});
      assert RoomReads(rooms) + rest == Shared(RoomMu(rooms[0]), []) + (RoomReads(rooms[1..]) + rest);
    }
  }

  lemma AroundRooms(rooms: seq<RoomId>, rest: seq<Op>)
    requires Ordered(rest, {}, {})
    ensures Ordered(Shared(ServerMu, RoomReads(rooms)) + rest, {}, {})
  {
    assert {} + {ServerMu} == {ServerMu};
    UnlockReadOrdered(ServerMu, rest, {}, {});
    RoomReadsOrdered(rooms, [ReadUnlock(ServerMu)] + rest);
    SharedOrdered(ServerMu, RoomReads(rooms), rest, {}, {});
  }

  lemma BlockOrdered(rest: seq<Op>)
    requires Ordered(rest, {}, {})
    ensures Ordered([Block] + rest, {}, {})
  {
    assert ([Block] + rest)[1..] == rest;
  }

  lemma AddNewRoomOrdered(known: bool, bound: bool, rest: seq<Op>)
    requires Ordered(rest, {}, {})
    ensures Ordered(AddingRoom(known, bound) + rest, {}, {})
  {
    AroundExclusive(ServerMu, HandlersMu, !known && bound, rest);
  }

  lemma AddingThenLooking(known: bool, bound: bool, rest: seq<Op>)
    requires Ordered(Shared(ServerMu, []) + rest, {}, {})
    ensures Ordered(Shared(ServerMu, []) + (AddingRoom(known, bound) + (Shared(ServerMu, []) + rest)), {}, {})
  {
    AddNewRoomOrdered(known, bound, Shared(ServerMu, []) + rest);
    LeafShared(ServerMu, AddingRoom(known, bound) + (Shared(ServerMu, []) + rest), {}, {});
  }

  lemma Assoc(a: seq<Op>, b: seq<Op>, c: seq<Op>)
    ensures a + b + c == a + (b + c)
  {}

  lemma Regroup(a: seq<Op>, b: seq<Op>, c: seq<Op>, d: seq<Op>, e: seq<Op>)
    ensures a + (b + c) + d + e == a + (b + (c + (d + e)))
  {}

  lemma AddUserOrdered(c: Section, rest: seq<Op>)
    requires c.AddUserToRoom? && Ordered(rest, {}, {})
    ensures Ordered(Script(c) + rest, {}, {})
  {
    var entering := Exclusive(RoomMu(c.room), IndexUpdate(!c.taken)) + rest;
    AroundExclusive(RoomMu(c.room), UserRoomMu, !c.taken, rest);
    LeafShared(ServerMu, entering, {}, {});
    if c.known {
      assert Script(c) + rest == Shared(ServerMu, []) + entering;
    } else {
      AddingThenLooking(c.racing, c.bound, entering);
      Regroup(Shared(ServerMu, []), AddingRoom(c.racing, c.bound), Shared(ServerMu, []),
              Exclusive(RoomMu(c.room), IndexUpdate(!c.taken)), rest);
    }
  }

  lemma RemoveUserOrdered(c: Section, rest: seq<Op>)
    requires c.RemoveUserFromRoom? && Ordered(rest, {}, {})
    ensures Ordered(Script(c) + rest, {}, {})
  {
    if c.known {
      var section := Exclusive(RoomMu(c.room), IndexUpdate(c.member));
      AroundExclusive(RoomMu(c.room), UserRoomMu, c.member, rest);
      LeafShared(ServerMu, section + rest, {}, {});
      Assoc(Shared(ServerMu, []), section, rest);
    } else {
      LeafShared(ServerMu, rest, {}, {});
      assert Script(c) + rest == Shared(ServerMu, []) + rest;
    }
  }

  lemma QueuedRemovalOrdered(c: Section, rest: seq<Op>)
    requires c.QueuedRemoval? && Ordered(rest, {}, {})
    ensures Ordered(Script(c) + rest, {}, {})
  {
    var after := IndexUpdate(c.member) + rest;
    if c.member {
      LeafExclusive(UserRoomMu, rest, {}, {});
    } else {
      assert after == rest;
    }
    LeafExclusive(RoomMu(c.room), after, {}, {});
    BlockOrdered(Exclusive(RoomMu(c.room), []) + after);
    assert Script(c) + rest == [Block] + (Exclusive(RoomMu(c.room), []) + after);
  }

  lemma LoopSectionOrdered(c: Section, rest: seq<Op>)
    requires (c.FanOut? || c.CloseRoom? || c.RouteDelivery?) && Ordered(rest, {}, {})
    ensures Ordered(Script(c) + rest, {}, {})
  {
    var section := Script(c)[1..];
    if c.CloseRoom? {
      LeafExclusive(RoomMu(c.room), rest, {}, {});
    } else {
      LeafShared(if c.FanOut? then RoomMu(c.room) else HandlersMu, rest, {}, {});
    }
    BlockOrdered(section + rest);
    Assoc([Block], section, rest);
    assert Script(c) == [Block] + section;
  }

  lemma WatcherOrdered(c: Section, rest: seq<Op>)
    requires (c.Metrics? || c.Monitor?) && Ordered(rest, {}, {})
    ensures Ordered(Script(c) + rest, {}, {})
  {
    if c.Metrics? {
      LeafShared(UserRoomMu, rest, {}, {});
      AroundRooms(c.rooms, Shared(UserRoomMu, []) + rest);
      Assoc(Shared(ServerMu, RoomReads(c.rooms)), Shared(UserRoomMu, []), rest);
    } else {
      AroundRooms(c.rooms, rest);
      BlockOrdered(Shared(ServerMu, RoomReads(c.rooms)) + rest);
      Assoc([Block], Shared(ServerMu, RoomReads(c.rooms)), rest);
    }
  }

  /** Each section of the source, in front of anything ordered, is ordered. */
  lemma ScriptOrdered(c: Section, rest: seq<Op>)
    requires Ordered(rest, {}, {})
    ensures Ordered(Script(c) + rest, {}, {})
  {
    match c
    case Waiting => BlockOrdered(rest);
    case AddNewRoom(known, bound) => AddNewRoomOrdered(known, bound, rest);
    case AddUserToRoom(_, _, _, _, _) => AddUserOrdered(c, rest);
    case RemoveFromUserRooms => LeafExclusive(UserRoomMu, rest, {}, {});
    case RemoveUserFromRoom(_, _, _) => RemoveUserOrdered(c, rest);
    case QueuedRemoval(_, _) => QueuedRemovalOrdered(c, rest);
    case FanOut(_) => LoopSectionOrdered(c, rest);
    case CloseRoom(_) => LoopSectionOrdered(c, rest);
    case RouteDelivery => LoopSectionOrdered(c, rest);
    case Metrics(_) => WatcherOrdered(c, rest);
    case Monitor(_) => WatcherOrdered(c, rest);
  }

  lemma {:induction false} ProgramOrdered(sections: seq<Section>)
    ensures Ordered(Program(sections), {}, {})
  {
    if sections != [] {
      ProgramOrdered(sections[1..]);
      ScriptOrdered(sections[0], Program(sections[1..]));
    }
  }

  // ------------------------------------------------------------------- machine

  /** Idle: not inside a lock call. ReadQueued: RLock found a writer holding or
      announced. WritePending: Lock has shut new readers out and waits for the
      present ones. */
  datatype Wait = Idle | ReadQueued(lock: Lock) | WritePending(lock: Lock)

  datatype Thread = Thread(todo: seq<Op>, shared: set<Lock>, owned: set<Lock>, wait: Wait)

  type Threads = seq<Thread>

  ghost predicate WriteHeld(s: Threads, l: Lock) { exists j :: 0 <= j < |s| && l in s[j].owned }

  ghost predicate ReadHeld(s: Threads, l: Lock) { exists j :: 0 <= j < |s| && l in s[j].shared }

  ghost predicate Announced(s: Threads, l: Lock) { exists j :: 0 <= j < |s| && s[j].wait == WritePending(l) }

  ghost predicate Taken(s: Threads, l: Lock) { WriteHeld(s, l) || Announced(s, l) }

  ghost predicate CanStep(s: Threads, i: nat) {
    && i < |s| && s[i].todo != [] && !s[i].wait.ReadQueued?
    && (s[i].wait.WritePending? ==> !ReadHeld(s, s[i].wait.lock))
    && (s[i].wait.Idle? && s[i].todo[0].WriteLock? ==> !Taken(s, s[i].todo[0].lock))
  }

  function Released(v: Thread): Thread
    requires v.todo != [] && v.todo[0].WriteUnlock?
  {
    v.(todo := v.todo[1..], owned := v.owned - {v.todo[0].lock})
  }

  /** What Unlock of l does to another thread: queued readers get the lock. */
  function Granted(v: Thread, l: Lock): Thread {
    if v.wait == ReadQueued(l) && v.todo != [] then
      v.(todo := v.todo[1..], shared := v.shared + {l}, wait := Idle)
    else v
  }

  ghost function Step(s: Threads, i: nat): Threads
    requires CanStep(s, i)
  {
    var v := s[i];
    match v.wait
    case WritePending(l) => s[i := v.(todo := v.todo[1..], owned := v.owned + {l}, wait := Idle)]
    case ReadQueued(l) => s
    case Idle =>
      match v.todo[0]
      case ReadLock(l) =>
        if Taken(s, l) then s[i := v.(wait := ReadQueued(l))]
        else s[i := v.(todo := v.todo[1..], shared := v.shared + {l})]
      case WriteLock(l) => s[i := v.(wait := WritePending(l))]
      case ReadUnlock(l) => s[i := v.(todo := v.todo[1..], shared := v.shared - {l})]
      case WriteUnlock(l) => seq(|s|, j requires 0 <= j < |s| => if j == i then Released(v) else Granted(s[j], l))
      case Block => s[i := v.(todo := v.todo[1..])]
  }

  ghost predicate LockRun(s: Threads, steps: seq<nat>, t: Threads)
    decreases |steps|
  {
    if steps == [] then s == t
    else CanStep(s, steps[0]) && LockRun(Step(s, steps[0]), steps[1..], t)
  }

  // ---------------------------------------------------------------- invariants

  predicate ThreadOk(v: Thread) {
    && Ordered(v.todo, v.shared, v.owned)
    && (v.wait.ReadQueued? ==> v.todo != [] && v.todo[0] == ReadLock(v.wait.lock))
    && (v.wait.WritePending? ==> v.todo != [] && v.todo[0] == WriteLock(v.wait.lock))
  }

  /** v and w are compatible: a writer is alone, and one writer is announced. */
  ghost predicate Apart(v: Thread, w: Thread) {
    && (forall l :: l in v.owned ==> l !in w.shared && l !in w.owned && w.wait != WritePending(l))
    && (v.wait.WritePending? ==> w.wait != v.wait)
  }

  ghost predicate AllOk(s: Threads) { forall i :: 0 <= i < |s| ==> ThreadOk(s[i]) }

  ghost predicate AllApart(s: Threads) {
    forall i, j :: 0 <= i < |s| && 0 <= j < |s| && i != j ==> Apart(s[i], s[j])
  }

  /** A queued reader waits for somebody. */
  ghost predicate QueuedOk(s: Threads) {
    forall i :: 0 <= i < |s| && s[i].wait.ReadQueued? ==> Taken(s, s[i].wait.lock)
  }

  ghost predicate LocksOk(s: Threads) { AllOk(s) && AllApart(s) && QueuedOk(s) }

  lemma ThreadsStayOk(s: Threads, i: nat)
    requires AllOk(s) && CanStep(s, i)
    ensures AllOk(Step(s, i))
  {
    assert ThreadOk(s[i]);
  }

  lemma ReplacedApart(s: Threads, i: nat, v: Thread)
    requires AllApart(s) && i < |s|
    requires forall j :: 0 <= j < |s| && j != i ==> Apart(v, s[j]) && Apart(s[j], v)
    ensures AllApart(s[i := v])
  {}

  lemma OneMovesApart(s: Threads, i: nat)
    requires AllOk(s) && AllApart(s) && CanStep(s, i) && !(s[i].wait.Idle? && s[i].todo[0].WriteUnlock?)
    ensures AllApart(Step(s, i))
  {
    var v := Step(s, i)[i];
    assert ThreadOk(s[i]);
    forall j | 0 <= j < |s| && j != i ensures Apart(v, s[j]) && Apart(s[j], v) {
      assert Apart(s[i], s[j]) && Apart(s[j], s[i]);
    }
    ReplacedApart(s, i, v);
  }

  lemma UnlockApart(s: Threads, i: nat)
    requires AllOk(s) && AllApart(s) && CanStep(s, i) && s[i].wait.Idle? && s[i].todo[0].WriteUnlock?
    ensures AllApart(Step(s, i))
  {
    var t, l := Step(s, i), s[i].todo[0].lock;
    assert ThreadOk(s[i]);
    forall j, k | 0 <= j < |s| && 0 <= k < |s| && j != k ensures Apart(t[j], t[k]) {
      assert Apart(s[j], s[k]);
      if j != i { assert Apart(s[i], s[j]); }
      if k != i { assert Apart(s[i], s[k]); }
    }
  }

  lemma StillTaken(s: Threads, i: nat, l: Lock)
    requires AllOk(s) && CanStep(s, i) && Taken(s, l) && !(s[i].wait.Idle? && s[i].todo[0] == WriteUnlock(l))
    ensures Taken(Step(s, i), l)
  {
    var t := Step(s, i);
    assert ThreadOk(s[i]);
    if j :| 0 <= j < |s| && l in s[j].owned {
      assert l in t[j].owned;
    } else {
      var j :| 0 <= j < |s| && s[j].wait == WritePending(l);
      assert l in t[j].owned || t[j].wait == WritePending(l);
    }
  }

  lemma QueueStaysOk(s: Threads, i: nat)
    requires AllOk(s) && QueuedOk(s) && CanStep(s, i)
    ensures QueuedOk(Step(s, i))
  {
    var t := Step(s, i);
    assert ThreadOk(s[i]);
    forall j | 0 <= j < |t| && t[j].wait.ReadQueued? ensures Taken(t, t[j].wait.lock) {
      assert ThreadOk(s[j]);
      assert Taken(s, t[j].wait.lock);
      StillTaken(s, i, t[j].wait.lock);
    }
  }

  lemma {:induction false} LocksOkAlways(s: Threads, steps: seq<nat>, t: Threads)
    requires LocksOk(s) && LockRun(s, steps, t)
    ensures LocksOk(t)
    decreases |steps|
  {
    if steps != [] {
      var i := steps[0];
      ThreadsStayOk(s, i);
      if s[i].wait.Idle? && s[i].todo[0].WriteUnlock? { UnlockApart(s, i); } else { OneMovesApart(s, i); }
      QueueStaysOk(s, i);
      LocksOkAlways(Step(s, i), steps[1..], t);
    }
  }

  // -------------------------------------------------------------- progress

  /** If a thread inside a lock cannot step, somebody holding or awaiting a
      higher lock can. */
  lemma {:induction false} HolderServed(s: Threads, i: nat, l: Lock) returns (k: nat)
    requires LocksOk(s) && i < |s| && l in s[i].shared + s[i].owned
    ensures CanStep(s, k) && !s[k].todo[0].Block?
    decreases 3 - Rank(l), 1
  {
    assert ThreadOk(s[i]);
    k := i;
    if !CanStep(s, i) {
      var higher := s[i].todo[0].lock;
      assert Rank(l) < Rank(higher);
      k := LockServed(s, higher);
    }
  }

  lemma {:induction false} LockServed(s: Threads, l: Lock) returns (k: nat)
    requires LocksOk(s) && (Taken(s, l) || ReadHeld(s, l))
    ensures CanStep(s, k) && !s[k].todo[0].Block?
    decreases 3 - Rank(l), 2
  {
    if j :| 0 <= j < |s| && l in s[j].shared + s[j].owned {
      k := HolderServed(s, j, l);
    } else {
      k :| 0 <= k < |s| && s[k].wait == WritePending(l);
      assert ThreadOk(s[k]);
    }
  }

  predicate AtRest(v: Thread) { v.shared == {} && v.owned == {} && v.wait.Idle? && (v.todo == [] || v.todo[0].Block?) }

  /** A thread in the middle of its locks means that some thread can step. */
  lemma SomebodySteps(s: Threads, i: nat) returns (k: nat)
    requires LocksOk(s) && i < |s| && !AtRest(s[i])
    ensures CanStep(s, k) && !s[k].todo[0].Block?
  {
    assert ThreadOk(s[i]);
    k := i;
    if !CanStep(s, i) {
      k := LockServed(s, s[i].todo[0].lock);
    }
  }

  // -------------------------------------------------------------- termination

  function Work(v: Thread): nat {
    if v.todo == [] then 0 else 2 * |v.todo| - if v.wait.Idle? then 0 else 1
  }

  function TotalWork(s: Threads): nat {
    if s == [] then 0 else Work(s[0]) + TotalWork(s[1..])
  }

  lemma {:induction false} LessWork(s: Threads, t: Threads, i: nat)
    requires |s| == |t| && i < |s| && Work(t[i]) < Work(s[i])
    requires forall j :: 0 <= j < |s| ==> Work(t[j]) <= Work(s[j])
    ensures TotalWork(t) < TotalWork(s)
  {
    if i == 0 {
      NoMoreWork(s[1..], t[1..]);
    } else {
      LessWork(s[1..], t[1..], i - 1);
    }
  }

  lemma {:induction false} NoMoreWork(s: Threads, t: Threads)
    requires |s| == |t| && forall j :: 0 <= j < |s| ==> Work(t[j]) <= Work(s[j])
    ensures TotalWork(t) <= TotalWork(s)
  {
    if s != [] { NoMoreWork(s[1..], t[1..]); }
  }

  lemma StepWorks(s: Threads, i: nat)
    requires CanStep(s, i)
    ensures TotalWork(Step(s, i)) < TotalWork(s)
  {
    LessWork(s, Step(s, i), i);
  }

  /** No schedule is longer than the work there is. */
  lemma {:induction false} RunsEnd(s: Threads, steps: seq<nat>, t: Threads)
    requires LockRun(s, steps, t)
    ensures |steps| + TotalWork(t) <= TotalWork(s)
    decreases |steps|
  {
    if steps != [] {
      StepWorks(s, steps[0]);
      RunsEnd(Step(s, steps[0]), steps[1..], t);
    }
  }

  // -------------------------------------------------------------- main results

  function Started(programs: seq<seq<Section>>): Threads {
    seq(|programs|, i requires 0 <= i < |programs| => Thread(Program(programs[i]), {}, {}, Idle))
  }

  lemma StartedOk(programs: seq<seq<Section>>)
    ensures LocksOk(Started(programs))
  {
    forall i | 0 <= i < |programs| ensures ThreadOk(Started(programs)[i]) { ProgramOrdered(programs[i]); }
  }

  /** Deadlock freedom: whatever the goroutines run and however they are
      scheduled, a state in which nobody can step is one in which everybody is
      done, holding nothing; and no schedule runs for ever. */
  lemma ServerNeverDeadlocks(programs: seq<seq<Section>>, steps: seq<nat>, s: Threads, i: nat)
    requires LockRun(Started(programs), steps, s) && i < |s|
    ensures (forall k :: !CanStep(s, k)) ==> s[i].todo == [] && s[i].shared == {} && s[i].owned == {}
    ensures |steps| <= TotalWork(Started(programs))
    ensures s[i].todo != [] && s[i].todo[0].Block? ==> s[i].shared == {} && s[i].owned == {}
  {
    StartedOk(programs);
    LocksOkAlways(Started(programs), steps, s);
    RunsEnd(Started(programs), steps, s);
    assert ThreadOk(s[i]);
    if !AtRest(s[i]) {
      var k := SomebodySteps(s, i);
    } else if s[i].todo != [] {
      assert CanStep(s, i);
    }
  }

  /** Whenever a thread is in a lock call or holds a lock, some thread can step
      other than by coming out of a blocking operation. */
  lemma WaitersAreServed(programs: seq<seq<Section>>, steps: seq<nat>, s: Threads, i: nat) returns (k: nat)
    requires LockRun(Started(programs), steps, s) && i < |s| && !AtRest(s[i])
    ensures CanStep(s, k) && !s[k].todo[0].Block?
  {
    StartedOk(programs);
    LocksOkAlways(Started(programs), steps, s);
    k := SomebodySteps(s, i);
  }

  /** A writer excludes everybody else. */
  lemma WritersExclude(programs: seq<seq<Section>>, steps: seq<nat>, s: Threads, i: nat, j: nat, l: Lock)
    requires LockRun(Started(programs), steps, s) && i < |s| && j < |s| && i != j && l in s[i].owned
    ensures l !in s[j].shared && l !in s[j].owned
  {
    StartedOk(programs);
    LocksOkAlways(Started(programs), steps, s);
    assert Apart(s[i], s[j]);
  }
}
