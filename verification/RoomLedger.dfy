/** Conservation in one room over whole runs: everything said, scheduled or
    delivered from outside, and everything fanned out, is accounted for. */
module RoomLedger {
  import opened Basics
  import opened Models
  import opened RoomProtocol
  import opened RoomSafety
  import opened RoomWindow
  import opened RoomProgress
  import opened RoomTags

  /** Sessions whose removal has been queued. */
  function Scheduled(r: Room): set<SessionId> {
    set x | x in r.sessions && r.sessions[x].h.queuedAt.Some?
  }

  function SaidBy(s: Session): nat { |s.h.said| }

  /** Everything any session has handed to broadcastAndPublish. */
  ghost function AllSaid(r: Room): nat { Sum(r.sessions, SaidBy) }

  /** Responses of other servers delivered to the room in a run. */
  function RemotesIn(acts: seq<Action>): nat {
    if acts == [] then 0 else (if acts[0].Remote? then 1 else 0) + RemotesIn(acts[1..])
  }

  /** What Broadcast has been offered from outside, as the books have it. */
  ghost function Delivered(r: Room): int {
    |r.h.enqueued| + r.h.lostRemote - r.h.localPushes - |Scheduled(r)|
  }

  ghost predicate SameBooks(r: Room, t: Room) {
    Delivered(t) == Delivered(r) && t.h.localTries - AllSaid(t) == r.h.localTries - AllSaid(r)
  }

  // ------------------------------------------------------------- silent steps

  lemma {:induction false} SumSame(m: map<SessionId, Session>, n: map<SessionId, Session>, f: Session -> nat)
    requires m.Keys <= n.Keys
    requires forall x :: x in n ==> f(n[x]) == if x in m then f(m[x]) else 0
    ensures Sum(n, f) == Sum(m, f)
    decreases |n|
  {
    if n != map[] {
      var x :| x in n;
      SumRemove(n, f, x);
      assert (n - {x}).Keys == n.Keys - {x};
      if x in m {
        SumRemove(m, f, x);
        SumSame(m - {x}, n - {x}, f);
      } else {
        SumSame(m, n - {x}, f);
      }
    }
  }

  lemma SilentBooks(r: Room, t: Room)
    requires Silent(r, t) && SamePushes(r, t)
    ensures SameBooks(r, t)
  {
    assert Scheduled(t) == Scheduled(r);
    SumSame(r.sessions, t.sessions, SaidBy);
  }

  // ----------------------------------------------------------- steps that push

  lemma SayBooks(r: Room, x: SessionId, m: Message, leaving: bool, created: string, stamped: string)
    requires x in r.sessions
    ensures SameBooks(r, Say(r, x, m, leaving, created, stamped))
  {
    var t := Say(r, x, m, leaving, created, stamped);
    SpeakingShape(r, x, m, leaving, created, stamped);
    assert t.sessions == r.sessions[x := t.sessions[x]];
    SameScheduled(r, t, x);
    SumUpdate(r.sessions, SaidBy, x, t.sessions[x]);
  }

  lemma CountTextBooks(r: Room, x: SessionId)
    requires x in r.sessions
    ensures SameBooks(r, CountText(r, x))
  {
    var t := CountText(r, x);
    assert Scheduled(t) == Scheduled(r);
    SumUpdate(r.sessions, SaidBy, x, t.sessions[x]);
  }

  lemma HearBooks(r: Room, x: SessionId, input: Input, created: string, stamped: string)
    requires x in r.sessions
    ensures SameBooks(r, AfterHear(r, x, input, created, stamped))
  {
    match Reaction(r.sessions[x], input)
    case None =>
    case Some((m, leaving)) =>
      if leaving {
        SayBooks(r, x, m, leaving, created, stamped);
      } else {
        CountTextBooks(r, x);
        SayBooks(CountText(r, x), x, m, leaving, created, stamped);
      }
  }

  lemma ScheduleBooks(r: Room, x: SessionId)
    requires At(r, x, Scheduling) && r.sessions[x].h.queuedAt.None?
    ensures SameBooks(r, AfterSchedule(r, x))
  {
    ScheduleCounts(r, x);
    SumUpdate(r.sessions, SaidBy, x, AfterSchedule(r, x).sessions[x]);
  }

  lemma ScheduleCounts(r: Room, x: SessionId)
    requires At(r, x, Scheduling) && r.sessions[x].h.queuedAt.None?
    ensures var t := AfterSchedule(r, x);
      && x in t.sessions && t.sessions == r.sessions[x := t.sessions[x]] && t.sessions[x].h.said == r.sessions[x].h.said
      && SamePushes(r, t) && |t.h.enqueued| - |Scheduled(t)| == |r.h.enqueued| - |Scheduled(r)|
  {
    if Full(r) {
      SameScheduled(r, AfterSchedule(r, x), x);
    } else {
      OneScheduled(r, AfterSchedule(r, x), x);
    }
  }

  lemma SameScheduled(r: Room, t: Room, x: SessionId)
    requires x in r.sessions && x in t.sessions && t.sessions == r.sessions[x := t.sessions[x]]
    requires t.sessions[x].h.queuedAt == r.sessions[x].h.queuedAt
    ensures Scheduled(t) == Scheduled(r)
  {}

  lemma OneScheduled(r: Room, t: Room, x: SessionId)
    requires x in r.sessions && x in t.sessions && t.sessions == r.sessions[x := t.sessions[x]]
    requires r.sessions[x].h.queuedAt.None? && t.sessions[x].h.queuedAt.Some?
    ensures |Scheduled(t)| == |Scheduled(r)| + 1
  {
    assert Scheduled(t) == Scheduled(r) + {x};
  }

  lemma RemoteBooks(r: Room, item: Item)
    ensures var t := AfterRemote(r, item);
      Delivered(t) == Delivered(r) + 1 && t.h.localTries - AllSaid(t) == r.h.localTries - AllSaid(r)
  {
    assert Scheduled(AfterRemote(r, item)) == Scheduled(r);
  }

  lemma BooksStep(r: Room, a: Action)
    requires Phases(r) && Enabled(r, a)
    ensures var t := Next(r, a);
      && Delivered(t) == Delivered(r) + (if a.Remote? then 1 else 0)
      && t.h.localTries - AllSaid(t) == r.h.localTries - AllSaid(r)
  {
    if a.Greet? {
      SayBooks(r, a.x, r.sessions[a.x].join, false, a.created, a.stamped);
    } else if a.Hear? {
      HearBooks(r, a.x, a.input, a.created, a.stamped);
    } else if a.Schedule? {
      ScheduledOnce(r, a);
      ScheduleBooks(r, a.x);
    } else if a.Remote? {
      RemoteBooks(r, a.item);
    } else {
      OthersAreSilent(r, a);
      OthersPushNothing(r, a);
      SilentBooks(r, Next(r, a));
    }
  }

  lemma {:induction false} BooksAlways(r: Room, acts: seq<Action>, t: Room)
    requires Safe(r) && Run(r, acts, t)
    ensures Delivered(t) == Delivered(r) + RemotesIn(acts)
    ensures t.h.localTries - AllSaid(t) == r.h.localTries - AllSaid(r)
    decreases |acts|
  {
    if acts != [] {
      SafeKept(r, acts[0]);
      BooksStep(r, acts[0]);
      BooksAlways(Next(r, acts[0]), acts[1..], t);
    }
  }

  // -------------------------------------------------------------- main result

  /** Conservation over whole runs. Everything any session said was pushed or
      counted as dropped; what has been enqueued, with the remote responses lost,
      is the local pushes, the queued removals and the remote responses
      delivered in the run; everything enqueued has been received or is queued;
      and every member present at the start of a fan-out accounts for one put or
      one counted drop, but for those the loop has still to reach. */
  lemma FanOutConservation(server: ServerId, id: RoomId, cap: nat, acts: seq<Action>, r: Room)
    requires Run(NewRoom(server, id, cap), acts, r)
    ensures AllSaid(r) == r.h.localTries == r.h.localPushes + r.droppedBroadcast
    ensures |r.h.enqueued| + r.h.lostRemote == r.h.localPushes + |Scheduled(r)| + RemotesIn(acts)
    ensures |r.h.enqueued| == r.h.received + |r.broadcast|
    ensures r.h.audience == r.h.puts + r.droppedSend + (if r.loop.Fanning? then |r.loop.pending| else 0)
    ensures 0 <= Done(r) <= |r.h.enqueued| && r.h.fanned == FanItems(r.h.enqueued[..Done(r)])
  {
    var start := NewRoom(server, id, cap);
    RecordedFromStart(server, id, cap, acts, r);
    BooksAlways(start, acts, r);
    assert Scheduled(start) == {} && AllSaid(start) == 0;
  }
}
