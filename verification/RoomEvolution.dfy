/** How one step changes a room: what every session keeps, whatever happens. */
module RoomEvolution {
  import opened Basics
  import opened Models
  import opened RoomProtocol

  predicate OfLoop(a: Action) {
    a.Receive? || a.Process? || a.FanOne? || a.EndFan? || a.Unlist? || a.SeeCancel? || a.CloseOne? || a.EndClose?
  }

  predicate OfWriter(a: Action) {
    a.WriterTake? || a.WriterWrote? || a.WriterFail? || a.WriterDrained? || a.WriterStop?
  }

  predicate OfSpeaker(a: Action) { a.Enter? || a.Indexed? || a.Greet? || a.Hear? || a.Handoff? }

  /** Identity and history only grow. */
  ghost predicate Evolves(s: Session, t: Session) {
    && t.user == s.user && t.join == s.join
    && s.h.said <= t.h.said && s.h.texts <= t.h.texts
    && (s.h.queuedAt.Some? ==> t.h.queuedAt == s.h.queuedAt)
  }

  /** Constants stay, sessions stay and evolve; a writer not acting is where it
      was; only Cancel cancels, and only a cancelled room shuts down. */
  ghost predicate RoomEvolves(r: Room, t: Room) {
    && t.server == r.server && t.id == r.id && t.cap == r.cap
    && (forall x :: x in r.sessions ==> x in t.sessions && Evolves(r.sessions[x], t.sessions[x]))
  }

  ghost predicate WritersUntouched(r: Room, t: Room) {
    forall x :: x in t.sessions ==>
      if x in r.sessions then t.sessions[x].writer == r.sessions[x].writer else t.sessions[x].writer.Waiting?
  }

  /** Only session x differs, and it has evolved. */
  lemma OneEvolves(r: Room, t: Room, x: SessionId)
    requires t.server == r.server && t.id == r.id && t.cap == r.cap
    requires x in r.sessions && x in t.sessions && t.sessions == r.sessions[x := t.sessions[x]]
    requires Evolves(r.sessions[x], t.sessions[x]) && t.sessions[x].writer == r.sessions[x].writer
    ensures RoomEvolves(r, t) && WritersUntouched(r, t)
  {}

  lemma SayEvolves(r: Room, x: SessionId, m: Message, leaving: bool, created: string, stamped: string)
    requires x in r.sessions
    ensures var t := Say(r, x, m, leaving, created, stamped);
      RoomEvolves(r, t) && WritersUntouched(r, t) && t.loop == r.loop && t.cancelled == r.cancelled
  {
    OneEvolves(r, Say(r, x, m, leaving, created, stamped), x);
  }

  lemma CountTextEvolves(r: Room, x: SessionId)
    requires x in r.sessions
    ensures RoomEvolves(r, CountText(r, x)) && WritersUntouched(r, CountText(r, x))
  {}

  lemma EvolvesTwice(r: Room, s: Room, t: Room)
    requires RoomEvolves(r, s) && WritersUntouched(r, s) && RoomEvolves(s, t) && WritersUntouched(s, t)
    ensures RoomEvolves(r, t) && WritersUntouched(r, t)
  {}

  lemma HearEvolves(r: Room, x: SessionId, input: Input, created: string, stamped: string)
    requires x in r.sessions
    ensures var t := AfterHear(r, x, input, created, stamped);
      RoomEvolves(r, t) && WritersUntouched(r, t) && t.loop == r.loop && t.cancelled == r.cancelled
  {
    match Reaction(r.sessions[x], input)
    case None =>
    case Some((m, leaving)) =>
      if leaving {
        SayEvolves(r, x, m, leaving, created, stamped);
      } else {
        var counted := CountText(r, x);
        CountTextEvolves(r, x);
        SayEvolves(counted, x, m, leaving, created, stamped);
        EvolvesTwice(r, counted, Say(counted, x, m, leaving, created, stamped));
      }
  }

  lemma SpeakerEvolves(r: Room, a: Action)
    requires Enabled(r, a) && OfSpeaker(a)
    ensures var t := Next(r, a);
      RoomEvolves(r, t) && WritersUntouched(r, t) && t.loop == r.loop && t.cancelled == r.cancelled
  {
    if a.Greet? {
      SayEvolves(r, a.x, r.sessions[a.x].join, false, a.created, a.stamped);
    } else if a.Hear? {
      HearEvolves(r, a.x, a.input, a.created, a.stamped);
    }
  }

  lemma EvictEvolves(r: Room, u: UserId)
    requires u in r.users && r.users[u] in r.sessions
    ensures RoomEvolves(r, Evict(r, u)) && WritersUntouched(r, Evict(r, u))
    ensures Evict(r, u).loop == r.loop && Evict(r, u).cancelled == r.cancelled
  {}

  lemma RemoveDirectEvolves(r: Room, x: SessionId)
    requires x in r.sessions
    ensures RoomEvolves(r, AfterRemoveDirect(r, x)) && WritersUntouched(r, AfterRemoveDirect(r, x))
    ensures AfterRemoveDirect(r, x).loop == r.loop && AfterRemoveDirect(r, x).cancelled == r.cancelled
  {
    var u := r.sessions[x].user;
    if u in r.users && r.users[u] in r.sessions { EvictEvolves(r, u); }
  }

  lemma ScheduleEvolves(r: Room, x: SessionId)
    requires x in r.sessions && r.sessions[x].h.queuedAt.None?
    ensures var t := AfterSchedule(r, x);
      RoomEvolves(r, t) && WritersUntouched(r, t) && t.loop == r.loop && t.cancelled == r.cancelled
  {
    OneEvolves(r, AfterSchedule(r, x), x);
  }

  lemma PhaseEvolves(r: Room, x: SessionId, p: Phase, holder: Option<SessionId>)
    requires x in r.sessions
    ensures var t := SetPhase(r, x, p).(holder := holder);
      RoomEvolves(r, t) && WritersUntouched(r, t) && t.loop == r.loop && t.cancelled == r.cancelled
  {}

  lemma LeaverEvolves(r: Room, a: Action)
    requires Enabled(r, a) && !OfSpeaker(a) && !OfLoop(a) && !OfWriter(a)
    requires a.Schedule? ==> r.sessions[a.x].h.queuedAt.None?
    ensures var t := Next(r, a);
      RoomEvolves(r, t) && WritersUntouched(r, t) && t.loop == r.loop && (t.cancelled == (r.cancelled || a.Cancel?))
  {
    if a.RemoveDirect? {
      RemoveDirectEvolves(r, a.x);
    } else if a.Schedule? {
      ScheduleEvolves(r, a.x);
    } else if a.Unindexed? {
      PhaseEvolves(r, a.x, Awaiting, None);
    } else if a.Depart? {
      PhaseEvolves(r, a.x, Departed, r.holder);
    }
  }

  lemma FanOneEvolves(r: Room, u: UserId)
    requires r.loop.Fanning?
    ensures RoomEvolves(r, AfterFanOne(r, u)) && WritersUntouched(r, AfterFanOne(r, u))
  {
    if u in r.users && r.users[u] in r.sessions && !r.sessions[r.users[u]].closed {
      OneEvolves(r, AfterFanOne(r, u), r.users[u]);
    }
  }

  lemma CloseOneEvolves(r: Room, u: UserId)
    requires r.loop.Closing?
    ensures RoomEvolves(r, AfterCloseOne(r, u)) && WritersUntouched(r, AfterCloseOne(r, u))
  {}

  lemma ProcessEvolves(r: Room)
    requires r.loop.Holding?
    ensures RoomEvolves(r, AfterProcess(r)) && WritersUntouched(r, AfterProcess(r))
  {
    var u := r.loop.event.removeUserId;
    if u in r.users && r.users[u] in r.sessions { EvictEvolves(r, u); }
  }

  lemma LoopEvolves(r: Room, a: Action)
    requires Enabled(r, a) && OfLoop(a)
    ensures RoomEvolves(r, Next(r, a))
    ensures WritersUntouched(r, Next(r, a)) && Next(r, a).cancelled == r.cancelled
    ensures Next(r, a).loop.Closing? || Next(r, a).loop.Exited? ==> r.loop.Closing? || r.loop.Exited? || r.cancelled
  {
    if a.FanOne? {
      FanOneEvolves(r, a.u);
    } else if a.CloseOne? {
      CloseOneEvolves(r, a.u);
    } else if a.Process? {
      ProcessEvolves(r);
    }
  }

  /** A writer's step touches its own session, and there only the writer, what
      is in Send and what has been received and written. */
  lemma WriterShape(r: Room, a: Action)
    requires Enabled(r, a) && OfWriter(a)
    ensures a.x in r.sessions && a.x in Next(r, a).sessions
    ensures var s, t := r.sessions[a.x], Next(r, a).sessions[a.x];
      && Next(r, a) == Update(r, a.x, t)
      && t == s.(send := t.send, writer := t.writer, h := s.h.(taken := t.h.taken, written := t.h.written))
  {}

  lemma WriterEvolves(r: Room, a: Action)
    requires Enabled(r, a) && OfWriter(a)
    ensures RoomEvolves(r, Next(r, a)) && Next(r, a).cancelled == r.cancelled && Next(r, a).loop == r.loop
  {
    WriterShape(r, a);
  }

  lemma SessionsEvolve(r: Room, a: Action)
    requires Enabled(r, a)
    requires a.Schedule? ==> r.sessions[a.x].h.queuedAt.None?
    ensures RoomEvolves(r, Next(r, a))
    ensures !OfWriter(a) ==> WritersUntouched(r, Next(r, a))
    ensures Next(r, a).cancelled == (r.cancelled || a.Cancel?)
    ensures Next(r, a).loop.Closing? || Next(r, a).loop.Exited? ==> r.loop.Closing? || r.loop.Exited? || r.cancelled
  {
    if OfSpeaker(a) {
      SpeakerEvolves(r, a);
    } else if OfLoop(a) {
      LoopEvolves(r, a);
    } else if OfWriter(a) {
      WriterEvolves(r, a);
    } else {
      LeaverEvolves(r, a);
    }
  }
}
