/** What identifies the events of one room: every session numbers what it says,
    so nothing is enqueued twice as long as nothing arrives twice from outside. */
module RoomTags {
  import opened Basics
  import opened Models
  import opened RoomProtocol
  import opened RoomSafety
  import opened RoomEvolution

  // -------------------------------------------------------------- invariants

  /** resp answers some message: NewResponse applied to its Message field gives
      the same answer again. */
  predicate Genuine(resp: Response) { SameAnswer(NewResponse(resp.message, ""), resp) }

  /** An event of this server's own making: a numbered response of a session,
      or the session's removal, numbered after everything it said. */
  ghost predicate OwnEvent(r: Room, k: nat)
    requires k < |r.h.enqueued|
  {
    var tag := r.h.enqueued[k].item.tag;
    && tag.room == r.id && tag.session in r.sessions
    && var h := r.sessions[tag.session].h;
       if tag.serial < |h.said| then r.h.enqueued[k] == RoomEvent(Item(tag, Some(h.said[tag.serial])), "")
       else tag.serial == |h.said| && h.queuedAt == Some(k)
  }

  ghost predicate Tags(r: Room) {
    forall k :: 0 <= k < |r.h.enqueued| ==>
      if r.h.enqueued[k].item.tag.server == r.server then OwnEvent(r, k)
      else r.h.enqueued[k].removeUserId == "" && r.h.enqueued[k].item.resp.Some?
  }

  ghost predicate Distinct(r: Room) {
    forall i, j :: 0 <= i < j < |r.h.enqueued| ==> r.h.enqueued[i].item.tag != r.h.enqueued[j].item.tag
  }

  /** What a handler is publishing is the last thing it said. */
  ghost predicate Speech(r: Room, x: SessionId)
    requires x in r.sessions
  {
    var s := r.sessions[x];
    && (forall i :: 0 <= i < |s.h.said| ==> Genuine(s.h.said[i]))
    && (s.phase.Publishing? ==>
          && s.h.said != []
          && var last := |s.h.said| - 1;
             s.phase.outgoing == ToQueue(Tag(r.server, r.id, x, last), s.h.said[last], s.phase.outgoing.timestamp))
  }

  ghost predicate Speeches(r: Room) { forall x :: x in r.sessions ==> Speech(r, x) }

  ghost predicate Tagged(r: Room) { Tags(r) && Distinct(r) && Speeches(r) && Talk(r) }

  /** qm is something a session said, and its Publish call is over. */
  ghost predicate HandedBy(r: Room, qm: QueueMessage) {
    && qm.id.session in r.sessions
    && var s := r.sessions[qm.id.session];
       && qm.id.serial < |s.h.said|
       && qm == ToQueue(qm.id, s.h.said[qm.id.serial], qm.timestamp)
       && (s.phase.Publishing? ==> s.phase.outgoing.id != qm.id)
  }

  predicate Speaks(a: Action) { a.Greet? || a.Hear? || a.Schedule? || a.Remote? }

  // --------------------------------------------- steps that enqueue nothing

  /** No event, nothing said, nobody newly publishing. */
  ghost predicate Silent(r: Room, t: Room) {
    && t.server == r.server && t.id == r.id && t.h.enqueued == r.h.enqueued
    && (forall x :: x in r.sessions ==> x in t.sessions)
    && (forall x :: x in t.sessions ==>
          if x in r.sessions then
            && t.sessions[x].h.said == r.sessions[x].h.said && t.sessions[x].h.queuedAt == r.sessions[x].h.queuedAt
            && (t.sessions[x].phase.Publishing? ==> t.sessions[x].phase == r.sessions[x].phase)
          else
            t.sessions[x].h.said == [] && t.sessions[x].h.queuedAt.None? && !t.sessions[x].phase.Publishing?)
  }

  /** 0 before a session has said its JOIN, 1 until it says it leaves, then 2. */
  function Stage(p: Phase): nat {
    match p
    case Indexing => 0
    case Greeting => 0
    case Publishing(_, leaving) => if leaving then 2 else 1
    case Reading => 1
    case _ => 2
  }

  /** A session says its JOIN, its texts and one LEAVE. */
  ghost predicate Talk(r: Room) {
    forall x :: x in r.sessions ==> |r.sessions[x].h.said| == r.sessions[x].h.texts + Stage(r.sessions[x].phase)
  }

  ghost predicate SameTalk(r: Room, t: Room) {
    forall x :: x in t.sessions ==>
      if x in r.sessions then
        && t.sessions[x].h.said == r.sessions[x].h.said && t.sessions[x].h.texts == r.sessions[x].h.texts
        && Stage(t.sessions[x].phase) == Stage(r.sessions[x].phase)
      else
        t.sessions[x].h.said == [] && t.sessions[x].h.texts == 0 && Stage(t.sessions[x].phase) == 0
  }

  lemma EvictSilent(r: Room, u: UserId)
    requires u in r.users && r.users[u] in r.sessions
    ensures Silent(r, Evict(r, u)) && SameTalk(r, Evict(r, u))
  {}

  lemma ProcessSilent(r: Room)
    requires r.loop.Holding?
    ensures Silent(r, AfterProcess(r)) && SameTalk(r, AfterProcess(r))
  {
    var u := r.loop.event.removeUserId;
    if u in r.users && r.users[u] in r.sessions { EvictSilent(r, u); }
  }

  lemma UnindexingSilent(r: Room, x: SessionId, holder: Option<SessionId>)
    requires x in r.sessions && Stage(r.sessions[x].phase) == 2
    ensures var t := SetPhase(r, x, Unindexing).(holder := holder); Silent(r, t) && SameTalk(r, t)
  {}

  lemma AwaitingSilent(r: Room, x: SessionId)
    requires x in r.sessions && Stage(r.sessions[x].phase) == 2
    ensures Silent(r, SetPhase(r, x, Awaiting)) && SameTalk(r, SetPhase(r, x, Awaiting))
  {}

  lemma SilentTwice(r: Room, s: Room, t: Room)
    requires Silent(r, s) && SameTalk(r, s) && Silent(s, t) && SameTalk(s, t)
    ensures Silent(r, t) && SameTalk(r, t)
  {}

  lemma RemoveDirectSilent(r: Room, x: SessionId)
    requires At(r, x, FallingBack)
    ensures Silent(r, AfterRemoveDirect(r, x)) && SameTalk(r, AfterRemoveDirect(r, x))
  {
    var u := r.sessions[x].user;
    if u in r.users && r.users[u] in r.sessions {
      EvictSilent(r, u);
      UnindexingSilent(Evict(r, u), x, Some(x));
      SilentTwice(r, Evict(r, u), AfterRemoveDirect(r, x));
    } else {
      AwaitingSilent(r, x);
    }
  }

  /** Only x differs, and says nothing. */
  lemma OneSilent(r: Room, t: Room, x: SessionId)
    requires x in r.sessions && x in t.sessions && t.sessions == r.sessions[x := t.sessions[x]]
    requires t.server == r.server && t.id == r.id && t.h.enqueued == r.h.enqueued
    requires var s, v := r.sessions[x], t.sessions[x];
      && v.h.said == s.h.said && v.h.queuedAt == s.h.queuedAt && v.h.texts == s.h.texts
      && (v.phase == s.phase || (!v.phase.Publishing? && Stage(v.phase) == Stage(s.phase)))
    ensures Silent(r, t) && SameTalk(r, t)
  {}

  lemma FanOneSilent(r: Room, u: UserId)
    requires r.loop.Fanning?
    ensures Silent(r, AfterFanOne(r, u)) && SameTalk(r, AfterFanOne(r, u))
  {
    if u in r.users && r.users[u] in r.sessions && !r.sessions[r.users[u]].closed {
      OneSilent(r, AfterFanOne(r, u), r.users[u]);
    }
  }

  lemma CloseOneSilent(r: Room, u: UserId)
    requires r.loop.Closing?
    ensures Silent(r, AfterCloseOne(r, u)) && SameTalk(r, AfterCloseOne(r, u))
  {}

  lemma EnterSilent(r: Room, x: SessionId, join: Message)
    requires x !in r.sessions
    ensures Silent(r, AfterEnter(r, x, join)) && SameTalk(r, AfterEnter(r, x, join))
  {}

  lemma WriterSilent(r: Room, a: Action)
    requires Enabled(r, a) && OfWriter(a)
    ensures Silent(r, Next(r, a)) && SameTalk(r, Next(r, a))
  {
    WriterShape(r, a);
    OneSilent(r, Next(r, a), a.x);
  }

  lemma MoveSilent(r: Room, a: Action)
    requires Enabled(r, a)
    requires a.Indexed? || a.Unindexed? || a.Handoff? || a.Depart? || a.Cancel?
    ensures Silent(r, Next(r, a)) && SameTalk(r, Next(r, a))
  {
    if !a.Cancel? { OneSilent(r, Next(r, a), a.x); }
  }

  lemma OthersAreSilent(r: Room, a: Action)
    requires Enabled(r, a) && !Speaks(a)
    ensures Silent(r, Next(r, a)) && SameTalk(r, Next(r, a))
  {
    if a.Process? {
      ProcessSilent(r);
    } else if a.RemoveDirect? {
      RemoveDirectSilent(r, a.x);
    } else if a.FanOne? {
      FanOneSilent(r, a.u);
    } else if a.CloseOne? {
      CloseOneSilent(r, a.u);
    } else if a.Enter? {
      EnterSilent(r, a.x, a.join);
    } else if OfWriter(a) {
      WriterSilent(r, a);
    } else if !OfLoop(a) {
      MoveSilent(r, a);
    }
  }

  /** What has been pushed, tried and lost stays what it is. */
  predicate SamePushes(r: Room, t: Room) {
    t.h.localTries == r.h.localTries && t.h.localPushes == r.h.localPushes && t.h.lostRemote == r.h.lostRemote
  }

  lemma LoopPushesNothing(r: Room, a: Action)
    requires Enabled(r, a) && OfLoop(a)
    ensures SamePushes(r, Next(r, a))
  {}

  lemma OthersPushNothing(r: Room, a: Action)
    requires Enabled(r, a) && !Speaks(a)
    ensures SamePushes(r, Next(r, a))
  {
    if OfLoop(a) { LoopPushesNothing(r, a); }
  }

  lemma SilentTagged(r: Room, t: Room)
    requires Tagged(r) && Silent(r, t) && Talk(t)
    ensures Tagged(t)
  {
    forall k | 0 <= k < |t.h.enqueued| && t.h.enqueued[k].item.tag.server == t.server ensures OwnEvent(t, k) {
      assert OwnEvent(r, k);
    }
    forall x | x in t.sessions ensures Speech(t, x) {
      if x in r.sessions { assert Speech(r, x); }
    }
  }

  lemma SilentHanded(r: Room, t: Room, qm: QueueMessage)
    requires HandedBy(r, qm) && Silent(r, t)
    ensures HandedBy(t, qm)
  {}

  // ------------------------------------------------------- steps that enqueue

  lemma NewResponseIsGenuine(m: Message, now: string)
    ensures Genuine(NewResponse(m, now))
  {
    RebuiltResponseAgrees(m, now, "");
  }

  /** The session part of Say. */
  lemma SpeakingShape(r: Room, x: SessionId, m: Message, leaving: bool, created: string, stamped: string)
    requires x in r.sessions
    ensures var t := Say(r, x, m, leaving, created, stamped);
            var s := r.sessions[x];
            var resp := NewResponse(m, created);
            var tag := Tag(r.server, r.id, x, |s.h.said|);
            && t.server == r.server && t.id == r.id && t.sessions.Keys == r.sessions.Keys
            && (forall y :: y in r.sessions && y != x ==> t.sessions[y] == r.sessions[y])
            && t.sessions[x].h.said == s.h.said + [resp] && t.sessions[x].h.texts == s.h.texts
            && t.sessions[x].h.queuedAt == s.h.queuedAt
            && t.sessions[x].phase == Publishing(ToQueue(tag, resp, stamped), leaving)
            && (t.h.enqueued == r.h.enqueued || t.h.enqueued == r.h.enqueued + [RoomEvent(Item(tag, Some(resp)), "")])
  {}

  lemma SayTags(r: Room, x: SessionId, m: Message, leaving: bool, created: string, stamped: string)
    requires Tags(r) && Distinct(r) && x in r.sessions && r.sessions[x].h.queuedAt.None?
    ensures var t := Say(r, x, m, leaving, created, stamped); Tags(t) && Distinct(t)
  {
    SpeakingShape(r, x, m, leaving, created, stamped);
    var t := Say(r, x, m, leaving, created, stamped);
    forall k | 0 <= k < |r.h.enqueued|
      ensures r.h.enqueued[k].item.tag != Tag(r.server, r.id, x, |r.sessions[x].h.said|)
      ensures r.h.enqueued[k].item.tag.server == r.server ==> OwnEvent(t, k)
    {
      if r.h.enqueued[k].item.tag.server == r.server { assert OwnEvent(r, k); }
    }
  }

  /** The speaker's part, apart from what makes a response genuine. */
  lemma SpeakerSpeech(r: Room, x: SessionId, t: Room, resp: Response, leaving: bool, stamped: string)
    requires x in r.sessions && Speech(r, x) && x in t.sessions && t.server == r.server && t.id == r.id
    requires Genuine(resp) && t.sessions[x].h.said == r.sessions[x].h.said + [resp]
    requires t.sessions[x].phase
      == Publishing(ToQueue(Tag(r.server, r.id, x, |r.sessions[x].h.said|), resp, stamped), leaving)
    ensures Speech(t, x)
  {}

  lemma SaySpeeches(r: Room, x: SessionId, m: Message, leaving: bool, created: string, stamped: string)
    requires Speeches(r) && x in r.sessions
    ensures Speeches(Say(r, x, m, leaving, created, stamped))
  {
    SpeakingShape(r, x, m, leaving, created, stamped);
    NewResponseIsGenuine(m, created);
    var t := Say(r, x, m, leaving, created, stamped);
    SpeakerSpeech(r, x, t, NewResponse(m, created), leaving, stamped);
    OtherSpeeches(r, t, x);
  }

  lemma OtherSpeeches(r: Room, t: Room, x: SessionId)
    requires Speeches(r) && t.sessions.Keys == r.sessions.Keys && t.server == r.server && t.id == r.id
    requires x in r.sessions && Speech(t, x)
    requires forall y :: y in r.sessions && y != x ==> t.sessions[y] == r.sessions[y]
    ensures Speeches(t)
  {
    forall y | y in t.sessions ensures Speech(t, y) {
      if y != x { assert Speech(r, y); }
    }
  }

  lemma SayHanded(r: Room, x: SessionId, m: Message, leaving: bool, created: string, stamped: string, qm: QueueMessage)
    requires HandedBy(r, qm) && x in r.sessions
    ensures HandedBy(Say(r, x, m, leaving, created, stamped), qm)
  {
    SpeakingShape(r, x, m, leaving, created, stamped);
  }

  lemma ScheduleShape(r: Room, x: SessionId)
    requires At(r, x, Scheduling) && !Full(r)
    ensures var t := AfterSchedule(r, x);
            && t.server == r.server && t.id == r.id && t.sessions.Keys == r.sessions.Keys
            && (forall y :: y in r.sessions && y != x ==> t.sessions[y] == r.sessions[y])
            && t.sessions[x].h.said == r.sessions[x].h.said
            && t.sessions[x].h.queuedAt == Some(|r.h.enqueued|) && t.sessions[x].phase == Awaiting
            && t.h.enqueued == r.h.enqueued + [RemovalEvent(r, x)]
  {}

  lemma ScheduleTags(r: Room, x: SessionId)
    requires Tags(r) && Distinct(r) && At(r, x, Scheduling) && !Full(r) && r.sessions[x].h.queuedAt.None?
    ensures Tags(AfterSchedule(r, x)) && Distinct(AfterSchedule(r, x))
  {
    ScheduleShape(r, x);
    var t := AfterSchedule(r, x);
    forall k | 0 <= k < |r.h.enqueued|
      ensures r.h.enqueued[k].item.tag != RemovalEvent(r, x).item.tag
      ensures r.h.enqueued[k].item.tag.server == r.server ==> OwnEvent(t, k)
    {
      if r.h.enqueued[k].item.tag.server == r.server { assert OwnEvent(r, k); }
    }
  }

  lemma ScheduleSpeeches(r: Room, x: SessionId)
    requires Speeches(r) && At(r, x, Scheduling) && !Full(r)
    ensures Speeches(AfterSchedule(r, x))
  {
    ScheduleShape(r, x);
    assert Speech(r, x);
    OtherSpeeches(r, AfterSchedule(r, x), x);
  }

  /** A remote response is new here and comes from another server. */
  ghost predicate Fresh(r: Room, item: Item) {
    && item.tag.server != r.server && item.resp.Some?
    && forall k :: 0 <= k < |r.h.enqueued| ==> r.h.enqueued[k].item.tag != item.tag
  }

  lemma RemoteTags(r: Room, item: Item)
    requires Tags(r) && Distinct(r) && Fresh(r, item)
    ensures Tags(Enqueue(r, RoomEvent(item, ""))) && Distinct(Enqueue(r, RoomEvent(item, "")))
  {
    var t := Enqueue(r, RoomEvent(item, ""));
    forall k | 0 <= k < |r.h.enqueued| && r.h.enqueued[k].item.tag.server == r.server ensures OwnEvent(t, k) {
      assert OwnEvent(r, k);
    }
  }

  lemma SameSessionsSpeeches(r: Room, t: Room)
    requires Speeches(r) && Talk(r) && t.sessions == r.sessions && t.server == r.server && t.id == r.id
    ensures Speeches(t) && Talk(t)
  {
    forall y | y in t.sessions ensures Speech(t, y) { assert Speech(r, y); }
  }

  lemma RemoteTagged(r: Room, item: Item)
    requires Tagged(r) && Fresh(r, item)
    ensures Tagged(AfterRemote(r, item))
  {
    SameSessionsSpeeches(r, AfterRemote(r, item));
    if Full(r) {
      assert Silent(r, AfterRemote(r, item));
      SilentTagged(r, AfterRemote(r, item));
    } else {
      RemoteTags(r, item);
    }
  }

  lemma CountTextTagged(r: Room, x: SessionId)
    requires Tags(r) && Distinct(r) && Speeches(r) && x in r.sessions && !r.sessions[x].phase.Publishing?
    ensures Tags(CountText(r, x)) && Distinct(CountText(r, x)) && Speeches(CountText(r, x))
  {
    var t := CountText(r, x);
    forall k | 0 <= k < |t.h.enqueued| && t.h.enqueued[k].item.tag.server == t.server ensures OwnEvent(t, k) {
      assert OwnEvent(r, k);
    }
    forall y | y in t.sessions ensures Speech(t, y) { assert Speech(r, y); }
  }

  lemma HearTagged(r: Room, x: SessionId, input: Input, created: string, stamped: string)
    requires Tagged(r) && At(r, x, Reading) && r.sessions[x].h.queuedAt.None?
    ensures Tagged(AfterHear(r, x, input, created, stamped))
  {
    HearTalk(r, x, input, created, stamped);
    match Reaction(r.sessions[x], input)
    case None =>
    case Some((m, leaving)) =>
      if leaving {
        SayTags(r, x, m, leaving, created, stamped);
        SaySpeeches(r, x, m, leaving, created, stamped);
      } else {
        CountTextTagged(r, x);
        SayTags(CountText(r, x), x, m, leaving, created, stamped);
        SaySpeeches(CountText(r, x), x, m, leaving, created, stamped);
      }
  }

  lemma TaggedKept(r: Room, a: Action)
    requires Phases(r) && Tagged(r) && Enabled(r, a) && (a.Remote? ==> Fresh(r, a.item))
    ensures Tagged(Next(r, a))
  {
    if a.Remote? {
      RemoteTagged(r, a.item);
    } else if Speaks(a) {
      assert PhaseOk(r.sessions[a.x]);
      TalkKept(r, a);
      if a.Greet? {
        SayTags(r, a.x, r.sessions[a.x].join, false, a.created, a.stamped);
        SaySpeeches(r, a.x, r.sessions[a.x].join, false, a.created, a.stamped);
      } else if a.Hear? {
        HearTagged(r, a.x, a.input, a.created, a.stamped);
      } else if Full(r) {
        assert Silent(r, Next(r, a));
        SilentTagged(r, Next(r, a));
      } else {
        ScheduleTags(r, a.x);
        ScheduleSpeeches(r, a.x);
      }
    } else {
      TalkKept(r, a);
      OthersAreSilent(r, a);
      SilentTagged(r, Next(r, a));
    }
  }

  lemma SayTalk(r: Room, x: SessionId, m: Message, leaving: bool, created: string, stamped: string)
    requires x in r.sessions
    requires forall y :: y in r.sessions && y != x ==>
      |r.sessions[y].h.said| == r.sessions[y].h.texts + Stage(r.sessions[y].phase)
    requires |r.sessions[x].h.said| + 1 == r.sessions[x].h.texts + if leaving then 2 else 1
    ensures Talk(Say(r, x, m, leaving, created, stamped))
  {
    SpeakingShape(r, x, m, leaving, created, stamped);
  }

  lemma TalkKept(r: Room, a: Action)
    requires Talk(r) && Enabled(r, a)
    ensures Talk(Next(r, a))
  {
    if a.Greet? {
      SayTalk(r, a.x, r.sessions[a.x].join, false, a.created, a.stamped);
    } else if a.Hear? {
      HearTalk(r, a.x, a.input, a.created, a.stamped);
    } else if a.Schedule? {
      ScheduleTalk(r, a.x);
    } else if a.Remote? {
      RemoteTalk(r, a.item);
    } else {
      OthersAreSilent(r, a);
      SameTalkKeeps(r, Next(r, a));
    }
  }

  lemma SameTalkKeeps(r: Room, t: Room)
    requires Talk(r) && SameTalk(r, t)
    ensures Talk(t)
  {}

  lemma ScheduleTalk(r: Room, x: SessionId)
    requires Talk(r) && At(r, x, Scheduling)
    ensures Talk(AfterSchedule(r, x))
  {
    if !Full(r) { ScheduleShape(r, x); }
  }

  lemma RemoteTalk(r: Room, item: Item)
    requires Talk(r)
    ensures Talk(AfterRemote(r, item))
  {}

  lemma HearTalk(r: Room, x: SessionId, input: Input, created: string, stamped: string)
    requires Talk(r) && At(r, x, Reading)
    ensures Talk(AfterHear(r, x, input, created, stamped))
  {
    match Reaction(r.sessions[x], input)
    case None =>
    case Some((m, leaving)) => SayTalk(if leaving then r else CountText(r, x), x, m, leaving, created, stamped);
  }

  lemma HearHanded(r: Room, x: SessionId, input: Input, created: string, stamped: string, qm: QueueMessage)
    requires HandedBy(r, qm) && x in r.sessions
    ensures HandedBy(AfterHear(r, x, input, created, stamped), qm)
  {
    match Reaction(r.sessions[x], input)
    case None =>
    case Some((m, leaving)) =>
      if leaving {
        SayHanded(r, x, m, leaving, created, stamped, qm);
      } else {
        SayHanded(CountText(r, x), x, m, leaving, created, stamped, qm);
      }
  }

  lemma HandedKept(r: Room, a: Action, qm: QueueMessage)
    requires HandedBy(r, qm) && Enabled(r, a)
    ensures HandedBy(Next(r, a), qm)
  {
    if a.Greet? {
      SayHanded(r, a.x, r.sessions[a.x].join, false, a.created, a.stamped, qm);
    } else if a.Hear? {
      HearHanded(r, a.x, a.input, a.created, a.stamped, qm);
    } else if a.Schedule? {
      assert HandedBy(AfterSchedule(r, a.x), qm);
    } else if !a.Remote? {
      OthersAreSilent(r, a);
      SilentHanded(r, Next(r, a), qm);
    }
  }

  /** Events a step adds to Broadcast carry this server's tag. */
  ghost predicate AddsOwn(r: Room, t: Room) {
    && r.h.enqueued <= t.h.enqueued
    && forall k :: |r.h.enqueued| <= k < |t.h.enqueued| ==> t.h.enqueued[k].item.tag.server == r.server
  }

  lemma HearAddsOwn(r: Room, x: SessionId, input: Input, created: string, stamped: string)
    requires x in r.sessions
    ensures AddsOwn(r, AfterHear(r, x, input, created, stamped))
  {
    match Reaction(r.sessions[x], input)
    case None =>
    case Some((m, leaving)) =>
      if leaving {
        SayAddsOwn(r, x, m, leaving, created, stamped);
      } else {
        SayAddsOwn(CountText(r, x), x, m, leaving, created, stamped);
      }
  }

  lemma SayAddsOwn(r: Room, x: SessionId, m: Message, leaving: bool, created: string, stamped: string)
    requires x in r.sessions
    ensures AddsOwn(r, Say(r, x, m, leaving, created, stamped))
  {
    SpeakingShape(r, x, m, leaving, created, stamped);
  }

  lemma StepsAddOwn(r: Room, a: Action)
    requires Enabled(r, a) && !a.Remote?
    ensures AddsOwn(r, Next(r, a))
  {
    if a.Greet? {
      SpeakingShape(r, a.x, r.sessions[a.x].join, false, a.created, a.stamped);
    } else if a.Hear? {
      HearAddsOwn(r, a.x, a.input, a.created, a.stamped);
    } else if a.Schedule? {
      if !Full(r) { ScheduleShape(r, a.x); }
    } else {
      OthersAreSilent(r, a);
    }
  }
}
