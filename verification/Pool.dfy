/** The load client's connection pool: a map of connections under a lock and a
    counting semaphore bounding them. Every call is a small state machine;
    a run interleaves any number of calls. */
module Pool {
  import opened Basics

  type ClientId = nat
  type CallId = nat

  // --------------------------------------------------------------------- keys

  function GetKey(userId: string, roomId: string): string { userId + ":" + roomId }

  /** u2 is u1, a colon and some text that r1 starts with in front of r2. */
  predicate Straddles(u1: string, r1: string, u2: string, r2: string) {
    |u1| < |u2| && u2[..|u1|] == u1 && u2[|u1|] == ':' && r1 == u2[|u1| + 1..] + ":" + r2
  }

  lemma StraddlingCollides(u1: string, r1: string, u2: string, r2: string)
    requires Straddles(u1, r1, u2, r2)
    ensures GetKey(u1, r1) == GetKey(u2, r2)
  {
    assert u2 == u1 + ":" + u2[|u1| + 1..];
  }

  lemma ShorterUserStraddles(u1: string, r1: string, u2: string, r2: string)
    requires GetKey(u1, r1) == GetKey(u2, r2) && |u1| < |u2|
    ensures Straddles(u1, r1, u2, r2)
  {
    var k := GetKey(u1, r1);
    assert u1 == k[..|u1|] && k[|u1|] == ':' && r1 == k[|u1| + 1..];
    assert u2 == k[..|u2|] && k[|u2|..] == ":" + r2;
    assert r1 == k[|u1| + 1..|u2|] + k[|u2|..];
  }

  /** Two pairs share a key exactly when they are equal or one user id runs
      over a colon into the other's room id. */
  lemma KeysCollideIff(u1: string, r1: string, u2: string, r2: string)
    ensures GetKey(u1, r1) == GetKey(u2, r2) <==>
      (u1 == u2 && r1 == r2) || Straddles(u1, r1, u2, r2) || Straddles(u2, r2, u1, r1)
  {
    if GetKey(u1, r1) == GetKey(u2, r2) {
      var k := GetKey(u1, r1);
      if |u1| < |u2| {
        ShorterUserStraddles(u1, r1, u2, r2);
      } else if |u2| < |u1| {
        ShorterUserStraddles(u2, r2, u1, r1);
      } else {
        assert u1 == k[..|u1|] == u2 && r1 == k[|u1| + 1..] == r2;
      }
    } else if Straddles(u1, r1, u2, r2) {
      StraddlingCollides(u1, r1, u2, r2);
    } else if Straddles(u2, r2, u1, r1) {
      StraddlingCollides(u2, r2, u1, r1);
    }
  }

  /** User ids without a colon, as the decimal ids of the load test, never collide. */
  lemma KeyIsInjective(u1: string, r1: string, u2: string, r2: string)
    requires ':' !in u1 && ':' !in u2 && GetKey(u1, r1) == GetKey(u2, r2)
    ensures u1 == u2 && r1 == r2
  {
    KeysCollideIff(u1, r1, u2, r2);
  }

  // ------------------------------------------------------------------ machine

  /** Where a call of GetOrCreateNewWsClient or Remove stands. */
  datatype Call =
    | Checking(key: string)                              // about to look under the read lock
    | Acquiring(key: string)                             // blocked on Sem
    | Dialling(key: string)                              // holds a token
    | DialFailed(key: string)                            // holds a token, about to release it
    | Dialled(key: string, client: ClientId)             // holds a token, about to look again
    | ClosingSpare(key: string, spare: ClientId, existing: ClientId)
    | ReleasingSpare(key: string, existing: ClientId)
    | Returned(key: string, client: ClientId)
    | Errored(key: string)
    | Evicting(client: ClientId)                         // Remove: out of Conns, not yet closed
    | ReleasingEvicted                                   // Remove: closed, token not yet released
    | RemoveDone

  datatype PoolState = PoolState(
    size: nat,
    conns: map<string, ClientId>,
    tokens: nat,                    // len(Sem)
    calls: map<CallId, Call>,
    open: set<ClientId>,            // dialled and not closed
    dialled: nat,                   // identities given out so far
    leaked: nat)                    // history: connections CloseAll took out of Conns

  function NewPool(size: nat): PoolState { PoolState(size, map[], 0, map[], {}, 0, 0) }

  datatype PoolAction =
    | Ask(t: CallId, key: string)
    | Look(t: CallId)
    | Acquire(t: CallId)
    | DialOk(t: CallId)
    | DialFail(t: CallId)
    | LookAgain(t: CallId)
    | CloseSpare(t: CallId)
    | Release(t: CallId)
    | AskRemove(t: CallId, key: string)
    | CloseEvicted(t: CallId)
    | CloseAllConns

  predicate Releasing(c: Call) { c.DialFailed? || c.ReleasingSpare? || c.ReleasingEvicted? }

  predicate HoldsToken(c: Call) {
    c.Dialling? || c.Dialled? || c.ClosingSpare? || c.Evicting? || Releasing(c)
  }

  /** The open connection only this call knows of. */
  function Private(c: Call): Option<ClientId> {
    match c
    case Dialled(_, x) => Some(x)
    case ClosingSpare(_, x, _) => Some(x)
    case Evicting(x) => Some(x)
    case _ => None
  }

  predicate PoolEnabled(p: PoolState, a: PoolAction) {
    match a
    case Ask(t, _) => t !in p.calls
    case Look(t) => t in p.calls && p.calls[t].Checking?
    case Acquire(t) => t in p.calls && p.calls[t].Acquiring? && p.tokens < p.size
    case DialOk(t) => t in p.calls && p.calls[t].Dialling?
    case DialFail(t) => t in p.calls && p.calls[t].Dialling?
    case LookAgain(t) => t in p.calls && p.calls[t].Dialled?
    case CloseSpare(t) => t in p.calls && p.calls[t].ClosingSpare?
    case Release(t) => t in p.calls && Releasing(p.calls[t]) && p.tokens > 0
    case AskRemove(t, _) => t !in p.calls
    case CloseEvicted(t) => t in p.calls && p.calls[t].Evicting?
    case CloseAllConns => true
  }

  function SetCall(p: PoolState, t: CallId, c: Call): PoolState { p.(calls := p.calls[t := c]) }

  function AfterRelease(c: Call): Call {
    match c
    case DialFailed(k) => Errored(k)
    case ReleasingSpare(k, x) => Returned(k, x)
    case _ => RemoveDone
  }

  function PoolNext(p: PoolState, a: PoolAction): PoolState
    requires PoolEnabled(p, a)
  {
    match a
    case Ask(t, k) => SetCall(p, t, Checking(k))
    case Look(t) =>
      var k := p.calls[t].key;
      SetCall(p, t, if k in p.conns then Returned(k, p.conns[k]) else Acquiring(k))
    case Acquire(t) => SetCall(p, t, Dialling(p.calls[t].key)).(tokens := p.tokens + 1)
    case DialOk(t) =>
      SetCall(p, t, Dialled(p.calls[t].key, p.dialled)).(open := p.open + {p.dialled}, dialled := p.dialled + 1)
    case DialFail(t) => SetCall(p, t, DialFailed(p.calls[t].key))
    case LookAgain(t) =>
      var k, c := p.calls[t].key, p.calls[t].client;
      if k in p.conns then SetCall(p, t, ClosingSpare(k, c, p.conns[k]))
      else SetCall(p, t, Returned(k, c)).(conns := p.conns[k := c])
    case CloseSpare(t) =>
      SetCall(p, t, ReleasingSpare(p.calls[t].key, p.calls[t].existing)).(open := p.open - {p.calls[t].spare})
    case Release(t) => SetCall(p, t, AfterRelease(p.calls[t])).(tokens := p.tokens - 1)
    case AskRemove(t, k) =>
      if k in p.conns then SetCall(p, t, Evicting(p.conns[k])).(conns := p.conns - {k})
      else SetCall(p, t, RemoveDone)
    case CloseEvicted(t) => SetCall(p, t, ReleasingEvicted).(open := p.open - {p.calls[t].client})
    case CloseAllConns => p.(conns := map[], open := p.open - p.conns.Values, leaked := p.leaked + |p.conns|)
  }

  ghost predicate PoolRun(p: PoolState, acts: seq<PoolAction>, q: PoolState)
    decreases |acts|
  {
    if acts == [] then p == q
    else PoolEnabled(p, acts[0]) && PoolRun(PoolNext(p, acts[0]), acts[1..], q)
  }

  lemma {:induction false} PoolRunSnoc(p: PoolState, acts: seq<PoolAction>, q: PoolState, a: PoolAction)
    requires PoolRun(p, acts, q) && PoolEnabled(q, a)
    ensures PoolRun(p, acts + [a], PoolNext(q, a))
    decreases |acts|
  {
    if acts == [] {
      assert acts + [a] == [a];
    } else {
      assert (acts + [a])[1..] == acts[1..] + [a];
      PoolRunSnoc(PoolNext(p, acts[0]), acts[1..], q, a);
    }
  }

  // --------------------------------------------------------------- invariants

  function Holders(calls: map<CallId, Call>): set<CallId> {
    set t | t in calls && HoldsToken(calls[t])
  }

  function Keepers(calls: map<CallId, Call>): set<CallId> {
    set t | t in calls && Private(calls[t]).Some?
  }

  /** Every token is a pooled connection, a call's, or lost to CloseAll. */
  ghost predicate TokensOk(p: PoolState) {
    p.tokens == |p.conns| + |Holders(p.calls)| + p.leaked && p.tokens <= p.size
  }

  /** Pooled connections are open, each under one key. */
  ghost predicate Pooled(p: PoolState) {
    && (forall k :: k in p.conns ==> p.conns[k] in p.open)
    && (forall k, l :: k in p.conns && l in p.conns && p.conns[k] == p.conns[l] ==> k == l)
  }

  /** A connection a call keeps to itself is open, not pooled, and no other
      call's. */
  ghost predicate Kept(p: PoolState) {
    && (forall t :: KeepsNow(p.calls, t) ==>
          Private(p.calls[t]).value in p.open && Private(p.calls[t]).value !in p.conns.Values)
    && (forall t, v :: KeepsNow(p.calls, t) && v in p.calls && Private(p.calls[t]) == Private(p.calls[v]) ==> t == v)
  }

  ghost predicate Fresh(p: PoolState) { forall c :: c in p.open ==> c < p.dialled }

  /** Every open connection has one owner: a key of Conns or one call. */
  ghost predicate Owned(p: PoolState) { Pooled(p) && Kept(p) && Fresh(p) }

  ghost predicate OpenCounted(p: PoolState) { |p.open| == |p.conns| + |Keepers(p.calls)| }

  ghost predicate PoolOk(p: PoolState) { TokensOk(p) && Owned(p) && OpenCounted(p) }

  function One(b: bool): nat { if b then 1 else 0 }

  predicate HoldsNow(calls: map<CallId, Call>, t: CallId) { t in calls && HoldsToken(calls[t]) }

  predicate KeepsNow(calls: map<CallId, Call>, t: CallId) { t in calls && Private(calls[t]).Some? }

  lemma HoldersUpdate(calls: map<CallId, Call>, t: CallId, c: Call)
    ensures |Holders(calls[t := c])| == |Holders(calls)| - One(HoldsNow(calls, t)) + One(HoldsToken(c))
  {
    var others := Holders(calls) - {t};
    assert Holders(calls) == if HoldsNow(calls, t) then others + {t} else others;
    assert Holders(calls[t := c]) == if HoldsToken(c) then others + {t} else others;
  }

  lemma KeepersUpdate(calls: map<CallId, Call>, t: CallId, c: Call)
    ensures |Keepers(calls[t := c])| == |Keepers(calls)| - One(KeepsNow(calls, t)) + One(Private(c).Some?)
  {
    var others := Keepers(calls) - {t};
    assert Keepers(calls) == if KeepsNow(calls, t) then others + {t} else others;
    assert Keepers(calls[t := c]) == if Private(c).Some? then others + {t} else others;
  }

  lemma SmallerMap(m: map<string, ClientId>, k: string)
    requires k in m
    ensures |m - {k}| == |m| - 1
  {
    assert m.Keys == (m - {k}).Keys + {k};
    assert |m.Keys| == |m| && |(m - {k}).Keys| == |m - {k}|;
  }

  lemma LargerMap(m: map<string, ClientId>, k: string, c: ClientId)
    requires k !in m
    ensures |m[k := c]| == |m| + 1
  {
    assert m[k := c].Keys == m.Keys + {k};
    assert |m.Keys| == |m| && |m[k := c].Keys| == |m[k := c]|;
  }

  lemma ValuesWithout(m: map<string, ClientId>, k: string)
    requires k in m && forall l :: l in m && m[l] == m[k] ==> l == k
    ensures |m.Values| == |(m - {k}).Values| + 1
  {
    forall v ensures v in m.Values <==> v in (m - {k}).Values + {m[k]} {
      if v in m.Values {
        var l :| l in m && m[l] == v;
        assert l != k ==> (m - {k})[l] == v;
      }
    }
    assert m.Values == (m - {k}).Values + {m[k]};
  }

  lemma {:induction false} InjectiveValues(m: map<string, ClientId>)
    requires forall k, l :: k in m && l in m && m[k] == m[l] ==> k == l
    ensures |m.Values| == |m|
    decreases |m|
  {
    if m != map[] {
      var k :| k in m;
      SmallerMap(m, k);
      InjectiveValues(m - {k});
      ValuesWithout(m, k);
    } else {
      assert m.Values == {};
    }
  }

  /** How many connections an action opens. */
  function Opened(a: PoolAction): int {
    One(a.DialOk?) - One(a.CloseSpare? || a.CloseEvicted?)
  }

  lemma OpenChange(p: PoolState, a: PoolAction)
    requires Kept(p) && Fresh(p) && PoolEnabled(p, a) && !a.CloseAllConns?
    ensures |PoolNext(p, a).open| == |p.open| + Opened(a)
  {
    if a.CloseSpare? || a.CloseEvicted? {
      assert KeepsNow(p.calls, a.t);
    }
  }

  /** How many connections an action puts into Conns. */
  function Pools(p: PoolState, a: PoolAction): int
    requires PoolEnabled(p, a)
  {
    One(a.LookAgain? && p.calls[a.t].key !in p.conns) - One(a.AskRemove? && a.key in p.conns)
  }

  lemma ConnsChange(p: PoolState, a: PoolAction)
    requires PoolEnabled(p, a) && !a.CloseAllConns?
    ensures |PoolNext(p, a).conns| == |p.conns| + Pools(p, a)
  {
    if a.AskRemove? && a.key in p.conns {
      SmallerMap(p.conns, a.key);
    } else if a.LookAgain? && p.calls[a.t].key !in p.conns {
      LargerMap(p.conns, p.calls[a.t].key, p.calls[a.t].client);
    }
  }

  lemma TokensKept(p: PoolState, a: PoolAction)
    requires TokensOk(p) && PoolEnabled(p, a)
    ensures TokensOk(PoolNext(p, a))
  {
    if !a.CloseAllConns? {
      var after := PoolNext(p, a).calls;
      HoldersUpdate(p.calls, a.t, after[a.t]);
      assert after == p.calls[a.t := after[a.t]];
      ConnsChange(p, a);
    }
  }

  lemma KeepersChange(p: PoolState, a: PoolAction)
    requires PoolEnabled(p, a) && !a.CloseAllConns?
    ensures |Keepers(PoolNext(p, a).calls)| == |Keepers(p.calls)| + Opened(a) - Pools(p, a)
  {
    var after := PoolNext(p, a).calls;
    KeepersUpdate(p.calls, a.t, after[a.t]);
    assert after == p.calls[a.t := after[a.t]];
  }

  lemma OpenCountedKept(p: PoolState, a: PoolAction)
    requires Owned(p) && OpenCounted(p) && PoolEnabled(p, a)
    ensures OpenCounted(PoolNext(p, a))
  {
    if a.CloseAllConns? {
      InjectiveValues(p.conns);
      assert p.conns.Values <= p.open;
    } else {
      OpenChange(p, a);
      ConnsChange(p, a);
      KeepersChange(p, a);
    }
  }

  lemma PooledKept(p: PoolState, a: PoolAction)
    requires Pooled(p) && Kept(p) && PoolEnabled(p, a)
    ensures Pooled(PoolNext(p, a))
  {
    if a.CloseSpare? || a.CloseEvicted? || a.LookAgain? {
      assert KeepsNow(p.calls, a.t);
    }
  }

  predicate Moves(a: PoolAction) { a.DialOk? || a.CloseSpare? || a.CloseEvicted? || a.LookAgain? || a.AskRemove? }

  lemma KeptByDial(p: PoolState, t: CallId)
    requires Pooled(p) && Kept(p) && Fresh(p) && PoolEnabled(p, DialOk(t))
    ensures Kept(PoolNext(p, DialOk(t)))
  {}

  lemma KeptByClose(p: PoolState, a: PoolAction)
    requires Kept(p) && PoolEnabled(p, a) && (a.CloseSpare? || a.CloseEvicted?)
    ensures Kept(PoolNext(p, a))
  {
    assert KeepsNow(p.calls, a.t);
  }

  lemma KeptByLook(p: PoolState, t: CallId)
    requires Kept(p) && PoolEnabled(p, LookAgain(t))
    ensures Kept(PoolNext(p, LookAgain(t)))
  {
    assert KeepsNow(p.calls, t);
  }

  lemma KeptByRemoval(p: PoolState, t: CallId, key: string)
    requires Pooled(p) && Kept(p) && PoolEnabled(p, AskRemove(t, key))
    ensures Kept(PoolNext(p, AskRemove(t, key)))
  {}

  lemma KeptAside(p: PoolState, a: PoolAction)
    requires Kept(p) && PoolEnabled(p, a) && !Moves(a)
    ensures Kept(PoolNext(p, a))
  {}

  lemma FreshKept(p: PoolState, a: PoolAction)
    requires Fresh(p) && PoolEnabled(p, a)
    ensures Fresh(PoolNext(p, a))
  {}

  lemma OwnedKept(p: PoolState, a: PoolAction)
    requires Owned(p) && PoolEnabled(p, a)
    ensures Owned(PoolNext(p, a))
  {
    PooledKept(p, a);
    FreshKept(p, a);
    match a
    case DialOk(t) => KeptByDial(p, t);
    case CloseSpare(_) => KeptByClose(p, a);
    case CloseEvicted(_) => KeptByClose(p, a);
    case LookAgain(t) => KeptByLook(p, t);
    case AskRemove(t, key) => KeptByRemoval(p, t, key);
    case _ => KeptAside(p, a);
  }

  lemma {:induction false} PoolOkAlways(p: PoolState, acts: seq<PoolAction>, q: PoolState)
    requires PoolOk(p) && PoolRun(p, acts, q)
    ensures PoolOk(q)
    decreases |acts|
  {
    if acts != [] {
      TokensKept(p, acts[0]);
      OwnedKept(p, acts[0]);
      OpenCountedKept(p, acts[0]);
      PoolOkAlways(PoolNext(p, acts[0]), acts[1..], q);
    }
  }

  lemma {:induction false} SizeKept(p: PoolState, acts: seq<PoolAction>, q: PoolState)
    requires PoolRun(p, acts, q)
    ensures q.size == p.size && q.leaked >= p.leaked
    decreases |acts|
  {
    if acts != [] { SizeKept(PoolNext(p, acts[0]), acts[1..], q); }
  }

  // ------------------------------------------------------------- main results

  /** In every interleaving the semaphore counts exactly the pooled connections,
      the calls in the middle of their work and what CloseAll took; so the open
      connections stay within the size less that loss, and no release blocks. */
  lemma TokenAccounting(size: nat, acts: seq<PoolAction>, p: PoolState)
    requires PoolRun(NewPool(size), acts, p)
    ensures p.tokens == |p.conns| + |Holders(p.calls)| + p.leaked
    ensures |p.open| + p.leaked <= p.tokens <= size
    ensures forall t :: t in p.calls && Releasing(p.calls[t]) ==> PoolEnabled(p, Release(t))
  {
    PoolOkAlways(NewPool(size), acts, p);
    SizeKept(NewPool(size), acts, p);
    KeepersHold(p.calls);
    forall t | t in p.calls && Releasing(p.calls[t]) ensures PoolEnabled(p, Release(t)) {
      assert t in Holders(p.calls);
    }
  }

  lemma KeepersHold(calls: map<CallId, Call>)
    ensures |Keepers(calls)| <= |Holders(calls)|
  {
    assert Keepers(calls) <= Holders(calls);
    Subset(Keepers(calls), Holders(calls));
  }

  lemma Subset(a: set<CallId>, b: set<CallId>)
    requires a <= b
    ensures |a| <= |b|
  {
    assert b == a + (b - a);
  }

  /** Each client CloseAll takes costs the pool one slot for good: once size of
      them are gone, no call that misses ever gets a token again. */
  lemma LeakedForGood(size: nat, acts: seq<PoolAction>, p: PoolState, more: seq<PoolAction>, q: PoolState, t: CallId)
    requires PoolRun(NewPool(size), acts, p) && PoolRun(p, more, q)
    ensures |q.conns| + |Holders(q.calls)| <= size - p.leaked
    ensures p.leaked == size ==> !PoolEnabled(q, Acquire(t))
  {
    PoolOkAlways(NewPool(size), acts, p);
    PoolOkAlways(p, more, q);
    SizeKept(NewPool(size), acts, p);
    SizeKept(p, more, q);
  }

  lemma NothingLeft(p: PoolState)
    requires PoolOk(p) && p.leaked == p.size
    ensures p.open == {}
  {
    KeepersHold(p.calls);
  }

  lemma ClosedWhenFull(p: PoolState)
    requires TokensOk(p) && |p.conns| == p.size
    ensures PoolNext(p, CloseAllConns).leaked == p.size
  {}

  /** Closing a full pool leaves it dead: no call that misses is ever served. */
  lemma ClosingAFullPoolStarvesIt(size: nat, acts: seq<PoolAction>, p: PoolState, more: seq<PoolAction>, q: PoolState,
                                  t: CallId)
    requires PoolRun(NewPool(size), acts, p) && |p.conns| == size
    requires PoolRun(PoolNext(p, CloseAllConns), more, q)
    ensures !PoolEnabled(q, Acquire(t)) && q.open == {}
  {
    var closed := PoolNext(p, CloseAllConns);
    PoolOkAlways(NewPool(size), acts, p);
    SizeKept(NewPool(size), acts, p);
    ClosedWhenFull(p);
    PoolRunSnoc(NewPool(size), acts, p, CloseAllConns);
    PoolOkAlways(NewPool(size), acts + [CloseAllConns], closed);
    PoolOkAlways(closed, more, q);
    SizeKept(closed, more, q);
    NothingLeft(q);
  }

  // ------------------------------------------------ exactly when a miss is served

  /** Some continuation gives call t its token. */
  ghost predicate CanBeServed(p: PoolState, t: CallId) {
    exists acts, q :: PoolRun(p, acts, q) && PoolEnabled(q, Acquire(t))
  }

  /** Steps until a call gives its token up, or has put it into Conns. */
  function StepsLeft(c: Call): nat {
    if c.Dialled? then 4
    else if c.Dialling? then 3
    else if c.ClosingSpare? || c.Evicting? then 2
    else if Releasing(c) then 1
    else 0
  }

  /** The next step of a call that holds a token. */
  function WorkOff(c: Call, v: CallId): PoolAction
    requires HoldsToken(c)
  {
    match c
    case Dialling(_) => DialFail(v)
    case Dialled(_, _) => LookAgain(v)
    case ClosingSpare(_, _, _) => CloseSpare(v)
    case Evicting(_) => CloseEvicted(v)
    case _ => Release(v)
  }

  lemma WorkOffStep(p: PoolState, v: CallId)
    requires TokensOk(p) && HoldsNow(p.calls, v)
    ensures var a := WorkOff(p.calls[v], v);
      && PoolEnabled(p, a)
      && var q := PoolNext(p, a);
         && v in q.calls && q.calls == p.calls[v := q.calls[v]] && StepsLeft(q.calls[v]) < StepsLeft(p.calls[v])
         && q.size == p.size && q.leaked == p.leaked
         && (!p.calls[v].Dialled? ==> q.conns == p.conns && !q.calls[v].Dialled?)
  {
    assert v in Holders(p.calls);
    assert |Holders(p.calls)| > 0;
  }

  /** A call that holds a token can work on until it does not. */
  lemma {:induction false} Finish(p: PoolState, v: CallId) returns (acts: seq<PoolAction>, q: PoolState)
    requires TokensOk(p) && v in p.calls
    ensures PoolRun(p, acts, q) && TokensOk(q) && q.size == p.size && q.leaked == p.leaked
    ensures v in q.calls && q.calls == p.calls[v := q.calls[v]] && !HoldsToken(q.calls[v])
    ensures !p.calls[v].Dialled? ==> q.conns == p.conns
    decreases StepsLeft(p.calls[v])
  {
    if !HoldsToken(p.calls[v]) {
      acts, q := [], p;
      assert p.calls == p.calls[v := p.calls[v]];
    } else {
      var a := WorkOff(p.calls[v], v);
      WorkOffStep(p, v);
      TokensKept(p, a);
      var rest;
      rest, q := Finish(PoolNext(p, a), v);
      acts := [a] + rest;
      assert acts[1..] == rest;
    }
  }

  lemma {:induction false} PoolRunConcat(p: PoolState, acts: seq<PoolAction>, q: PoolState,
                                         more: seq<PoolAction>, r: PoolState)
    requires PoolRun(p, acts, q) && PoolRun(q, more, r)
    ensures PoolRun(p, acts + more, r)
    decreases |acts|
  {
    if acts == [] {
      assert acts + more == more;
    } else {
      assert (acts + more)[1..] == acts[1..] + more;
      PoolRunConcat(PoolNext(p, acts[0]), acts[1..], q, more, r);
    }
  }

  lemma {:induction false} FreshCall(used: set<CallId>) returns (u: CallId)
    ensures forall v :: v in used ==> v < u
    decreases |used|
  {
    if used == {} {
      u := 0;
    } else {
      var v :| v in used;
      var w := FreshCall(used - {v});
      u := if v < w then w else v + 1;
      forall x | x in used ensures x < u { assert x == v || x in used - {v}; }
    }
  }

  /** Somebody asks for the removal of a pooled key, and it is carried out. */
  lemma RemoveOne(p: PoolState, key: string) returns (acts: seq<PoolAction>, q: PoolState)
    requires TokensOk(p) && key in p.conns && Holders(p.calls) == {}
    ensures PoolRun(p, acts, q) && TokensOk(q) && q.size == p.size && q.leaked == p.leaked
    ensures Holders(q.calls) == {} && |q.conns| < |p.conns|
    ensures forall t :: t in p.calls ==> t in q.calls && q.calls[t] == p.calls[t]
  {
    var u := FreshCall(p.calls.Keys);
    var a := AskRemove(u, key);
    var p1 := PoolNext(p, a);
    TokensKept(p, a);
    var rest;
    rest, q := Finish(p1, u);
    acts := [a] + rest;
    assert acts[1..] == rest;
    SmallerMap(p.conns, key);
    OnlyHolder(p.calls, u, q.calls[u]);
    assert q.calls == p.calls[u := q.calls[u]];
  }

  lemma OnlyHolder(calls: map<CallId, Call>, u: CallId, c: Call)
    requires !HoldsToken(c)
    ensures Holders(calls[u := c]) == Holders(calls) - {u}
  {}

  /** Working off holders first, pooled clients then, makes room for t. */
  lemma {:induction false} MakeWay(p: PoolState, t: CallId) returns (acts: seq<PoolAction>, q: PoolState)
    requires TokensOk(p) && p.leaked < p.size && t in p.calls && p.calls[t].Acquiring?
    ensures PoolRun(p, acts, q) && PoolEnabled(q, Acquire(t))
    decreases |Holders(p.calls)|, |p.conns|
  {
    if p.tokens < p.size {
      acts, q := [], p;
    } else {
      var first, p1;
      if Holders(p.calls) != {} {
        var v :| v in Holders(p.calls);
        first, p1 := Finish(p, v);
        OnlyHolder(p.calls, v, p1.calls[v]);
      } else {
        assert p.conns != map[];
        var key :| key in p.conns;
        first, p1 := RemoveOne(p, key);
      }
      var rest;
      rest, q := MakeWay(p1, t);
      acts := first + rest;
      PoolRunConcat(p, first, p1, rest, q);
    }
  }

  /** A call that missed can still be served iff not every slot is lost: the
      condition looks at the pool only, not at what anybody will do. */
  lemma ServedIff(p: PoolState, t: CallId)
    requires TokensOk(p) && t in p.calls && p.calls[t].Acquiring?
    ensures CanBeServed(p, t) <==> p.leaked < p.size
  {
    if p.leaked < p.size {
      var acts, q := MakeWay(p, t);
    } else {
      forall acts, q | PoolRun(p, acts, q) ensures !PoolEnabled(q, Acquire(t)) {
        TokensAlways(p, acts, q);
        SizeKept(p, acts, q);
      }
    }
  }

  lemma {:induction false} TokensAlways(p: PoolState, acts: seq<PoolAction>, q: PoolState)
    requires TokensOk(p) && PoolRun(p, acts, q)
    ensures TokensOk(q)
    decreases |acts|
  {
    if acts != [] {
      TokensKept(p, acts[0]);
      TokensAlways(PoolNext(p, acts[0]), acts[1..], q);
    }
  }

  /** Before the call: CloseAll leaves a waiting call a chance iff what it is
      about to take and what was lost before do not add up to the whole pool. */
  lemma ServedAfterCloseAllIff(size: nat, acts: seq<PoolAction>, p: PoolState, t: CallId)
    requires PoolRun(NewPool(size), acts, p) && t in p.calls && p.calls[t].Acquiring?
    ensures CanBeServed(PoolNext(p, CloseAllConns), t) <==> p.leaked + |p.conns| < size
  {
    PoolOkAlways(NewPool(size), acts, p);
    SizeKept(NewPool(size), acts, p);
    TokensKept(p, CloseAllConns);
    ServedIff(PoolNext(p, CloseAllConns), t);
  }

  // ------------------------------------------------------- the case does arise

  /** A call that dials key and pools it. */
  lemma PoolsOne(p: PoolState, t: CallId, key: string) returns (acts: seq<PoolAction>, q: PoolState)
    requires t !in p.calls && key !in p.conns && p.tokens < p.size
    ensures PoolRun(p, acts, q)
    ensures q == CallDone(p, t, Returned(key, p.dialled), p.conns[key := p.dialled], p.tokens + 1,
                          p.open + {p.dialled}, p.dialled + 1)
  {
    var p1 := CallDone(p, t, Dialled(key, p.dialled), p.conns, p.tokens + 1, p.open + {p.dialled}, p.dialled + 1);
    DialledRuns(p, t, key);
    InsertedRuns(p1, t);
    q := CallDone(p1, t, Returned(key, p.dialled), p1.conns[key := p.dialled], p1.tokens, p1.open, p1.dialled);
    assert q.calls == p.calls[t := Returned(key, p.dialled)];
    acts := [Ask(t, key), Look(t)] + [Acquire(t)] + [DialOk(t)] + [LookAgain(t)];
    PoolRunConcat(p, [Ask(t, key), Look(t)] + [Acquire(t)] + [DialOk(t)], p1, [LookAgain(t)], q);
  }

  /** n different keys. */
  function KeyNo(n: nat): string { seq(n, _ => 'k') }

  /** n calls for n keys, one after the other, fill n places of a pool. */
  lemma {:induction false} Fills(size: nat, n: nat) returns (acts: seq<PoolAction>, p: PoolState)
    requires n <= size
    ensures PoolRun(NewPool(size), acts, p) && p.size == size && p.tokens == n && |p.conns| == n
    ensures forall t :: t in p.calls ==> t < n
    ensures forall key :: key in p.conns ==> |key| < n
  {
    if n == 0 {
      acts, p := [], NewPool(size);
    } else {
      var first, p1 := Fills(size, n - 1);
      var rest;
      rest, p := PoolsOne(p1, n - 1, KeyNo(n - 1));
      LargerMap(p1.conns, KeyNo(n - 1), p1.dialled);
      PoolRunConcat(NewPool(size), first, p1, rest, p);
      acts := first + rest;
    }
  }

  /** For every size there is a reachable full pool with a call waiting for a
      place. As it stands the call can still be served; CloseAll on that very
      pool would rule it out for good. */
  lemma CloseAllCanStarveAWaiter(size: nat) returns (acts: seq<PoolAction>, p: PoolState, t: CallId)
    requires size > 0
    ensures PoolRun(NewPool(size), acts, p) && |p.conns| == size
    ensures t in p.calls && p.calls[t].Acquiring?
    ensures CanBeServed(p, t) && !CanBeServed(PoolNext(p, CloseAllConns), t)
  {
    var first, p0 := Fills(size, size);
    t := size;
    AskedRuns(p0, t, KeyNo(size));
    p := SetCall(p0, t, Acquiring(KeyNo(size)));
    acts := first + [Ask(t, KeyNo(size)), Look(t)];
    PoolRunConcat(NewPool(size), first, p0, [Ask(t, KeyNo(size)), Look(t)], p);
    PoolOkAlways(NewPool(size), acts, p);
    ServedIff(p, t);
    ServedAfterCloseAllIff(size, acts, p, t);
  }

  /** The client a call has settled on. */
  function Settled(c: Call): Option<ClientId> {
    match c
    case Returned(_, x) => Some(x)
    case ClosingSpare(_, _, x) => Some(x)
    case ReleasingSpare(_, x) => Some(x)
    case _ => None
  }

  predicate SettledOn(c: Call, key: string) { Settled(c).Some? && c.key == key }

  /** Neither CloseAll nor a removal of this key. */
  predicate Sparing(a: PoolAction, key: string) { !a.CloseAllConns? && !(a.AskRemove? && a.key == key) }

  ghost predicate Agreed(p: PoolState, key: string) {
    forall t :: t in p.calls && SettledOn(p.calls[t], key) ==>
      key in p.conns && Settled(p.calls[t]) == Some(p.conns[key])
  }

  lemma AgreedKept(p: PoolState, a: PoolAction, key: string)
    requires Agreed(p, key) && PoolEnabled(p, a) && Sparing(a, key)
    ensures Agreed(PoolNext(p, a), key)
    ensures key in p.conns ==> key in PoolNext(p, a).conns && PoolNext(p, a).conns[key] == p.conns[key]
  {}

  lemma {:induction false} AgreedAlways(p: PoolState, acts: seq<PoolAction>, q: PoolState, key: string)
    requires Agreed(p, key) && PoolRun(p, acts, q)
    requires forall i :: 0 <= i < |acts| ==> Sparing(acts[i], key)
    ensures Agreed(q, key)
    ensures key in p.conns ==> key in q.conns && q.conns[key] == p.conns[key]
    decreases |acts|
  {
    if acts != [] {
      AgreedKept(p, acts[0], key);
      AgreedAlways(PoolNext(p, acts[0]), acts[1..], q, key);
    }
  }

  /** As long as nobody removes the key, everyone who asks for it gets the same
      client, which stays open and pooled, however the calls race. */
  lemma OneClientPerKey(size: nat, acts: seq<PoolAction>, p: PoolState, key: string, t: CallId, v: CallId)
    requires PoolRun(NewPool(size), acts, p)
    requires forall i :: 0 <= i < |acts| ==> Sparing(acts[i], key)
    requires t in p.calls && v in p.calls
    requires p.calls[t].Returned? && p.calls[t].key == key && p.calls[v].Returned? && p.calls[v].key == key
    ensures p.calls[t].client == p.calls[v].client
    ensures key in p.conns && p.conns[key] == p.calls[t].client && p.calls[t].client in p.open
  {
    AgreedAlways(NewPool(size), acts, p, key);
    PoolOkAlways(NewPool(size), acts, p);
    assert SettledOn(p.calls[t], key) && SettledOn(p.calls[v], key);
  }

  // ------------------------------------------------------------ the code itself

  /** p after call t has become c, Conns and the rest given. */
  function CallDone(p: PoolState, t: CallId, c: Call, conns: map<string, ClientId>, tokens: nat, open: set<ClientId>,
                    dialled: nat): PoolState
  {
    PoolState(p.size, conns, tokens, p.calls[t := c], open, dialled, p.leaked)
  }

  lemma AskedRuns(p: PoolState, t: CallId, key: string)
    requires t !in p.calls
    ensures var q := SetCall(p, t, if key in p.conns then Returned(key, p.conns[key]) else Acquiring(key));
      PoolRun(p, [Ask(t, key), Look(t)], q)
  {
    var p1 := PoolNext(p, Ask(t, key));
    var p2 := PoolNext(p1, Look(t));
    assert p2.calls == p.calls[t := p2.calls[t]];
    assert PoolRun(p, [], p) && [] + [Ask(t, key)] == [Ask(t, key)];
    PoolRunSnoc(p, [], p, Ask(t, key));
    PoolRunSnoc(p, [Ask(t, key)], p1, Look(t));
    assert [Ask(t, key)] + [Look(t)] == [Ask(t, key), Look(t)];
  }

  lemma DialledRuns(p: PoolState, t: CallId, key: string)
    requires t !in p.calls && key !in p.conns && p.tokens < p.size
    ensures PoolRun(p, [Ask(t, key), Look(t)] + [Acquire(t)] + [DialOk(t)],
      CallDone(p, t, Dialled(key, p.dialled), p.conns, p.tokens + 1, p.open + {p.dialled}, p.dialled + 1))
  {
    AskedRuns(p, t, key);
    var p1 := SetCall(p, t, Acquiring(key));
    var p2 := PoolNext(p1, Acquire(t));
    PoolRunSnoc(p, [Ask(t, key), Look(t)], p1, Acquire(t));
    PoolRunSnoc(p, [Ask(t, key), Look(t)] + [Acquire(t)], p2, DialOk(t));
    assert PoolNext(p2, DialOk(t)).calls == p.calls[t := Dialled(key, p.dialled)];
  }

  lemma ReusedRuns(p: PoolState, t: CallId)
    requires t in p.calls && p.calls[t].Dialled? && p.calls[t].key in p.conns && p.tokens > 0
    ensures var c := p.calls[t];
      PoolRun(p, [LookAgain(t)] + [CloseSpare(t)] + [Release(t)],
        CallDone(p, t, Returned(c.key, p.conns[c.key]), p.conns, p.tokens - 1, p.open - {c.client}, p.dialled))
  {
    var p1 := PoolNext(p, LookAgain(t));
    var p2 := PoolNext(p1, CloseSpare(t));
    assert PoolRun(p, [], p) && [] + [LookAgain(t)] == [LookAgain(t)];
    PoolRunSnoc(p, [], p, LookAgain(t));
    PoolRunSnoc(p, [LookAgain(t)], p1, CloseSpare(t));
    PoolRunSnoc(p, [LookAgain(t)] + [CloseSpare(t)], p2, Release(t));
    assert PoolNext(p2, Release(t)).calls == p.calls[t := Returned(p.calls[t].key, p.conns[p.calls[t].key])];
  }

  lemma InsertedRuns(p: PoolState, t: CallId)
    requires t in p.calls && p.calls[t].Dialled? && p.calls[t].key !in p.conns
    ensures var c := p.calls[t];
      PoolRun(p, [LookAgain(t)],
        CallDone(p, t, Returned(c.key, c.client), p.conns[c.key := c.client], p.tokens, p.open, p.dialled))
  {
    assert PoolRun(p, [], p) && [] + [LookAgain(t)] == [LookAgain(t)];
    PoolRunSnoc(p, [], p, LookAgain(t));
  }

  lemma FailedRuns(p: PoolState, t: CallId, key: string)
    requires t !in p.calls && key !in p.conns && p.tokens < p.size
    ensures PoolRun(p, [Ask(t, key), Look(t)] + [Acquire(t)] + [DialFail(t)] + [Release(t)],
      SetCall(p, t, Errored(key)))
  {
    AskedRuns(p, t, key);
    var p1 := SetCall(p, t, Acquiring(key));
    var p2 := PoolNext(p1, Acquire(t));
    var p3 := PoolNext(p2, DialFail(t));
    PoolRunSnoc(p, [Ask(t, key), Look(t)], p1, Acquire(t));
    PoolRunSnoc(p, [Ask(t, key), Look(t)] + [Acquire(t)], p2, DialFail(t));
    PoolRunSnoc(p, [Ask(t, key), Look(t)] + [Acquire(t)] + [DialFail(t)], p3, Release(t));
    assert PoolNext(p3, Release(t)).calls == p.calls[t := Errored(key)];
  }

  lemma RemovedRuns(p: PoolState, t: CallId, key: string)
    requires t !in p.calls && key in p.conns && p.tokens > 0
    ensures PoolRun(p, [AskRemove(t, key)] + [CloseEvicted(t)] + [Release(t)],
      CallDone(p, t, RemoveDone, p.conns - {key}, p.tokens - 1, p.open - {p.conns[key]}, p.dialled))
  {
    var p1 := PoolNext(p, AskRemove(t, key));
    var p2 := PoolNext(p1, CloseEvicted(t));
    assert PoolRun(p, [], p) && [] + [AskRemove(t, key)] == [AskRemove(t, key)];
    PoolRunSnoc(p, [], p, AskRemove(t, key));
    PoolRunSnoc(p, [AskRemove(t, key)], p1, CloseEvicted(t));
    PoolRunSnoc(p, [AskRemove(t, key)] + [CloseEvicted(t)], p2, Release(t));
    assert PoolNext(p2, Release(t)).calls == p.calls[t := RemoveDone];
  }

  lemma PooledHasToken(p: PoolState, key: string)
    requires TokensOk(p) && key in p.conns
    ensures p.tokens > 0
  {
    SmallerMap(p.conns, key);
  }

  lemma NotFoundRuns(p: PoolState, t: CallId, key: string)
    requires t !in p.calls && key !in p.conns
    ensures PoolRun(p, [AskRemove(t, key)], SetCall(p, t, RemoveDone))
  {
    assert PoolRun(p, [], p) && [] + [AskRemove(t, key)] == [AskRemove(t, key)];
    PoolRunSnoc(p, [], p, AskRemove(t, key));
  }

  /** The pool as the load client holds it. Each method is one call run without
      interruption. */
  class LivePool {
    const size: nat
    var conns: map<string, ClientId>
    var sem: nat
    var open: set<ClientId>
    var dialled: nat
    ghost var calls: map<CallId, Call>
    ghost var leaked: nat

    ghost function View(): PoolState
      reads this
    {
      PoolState(size, conns, sem, calls, open, dialled, leaked)
    }

    constructor (size: nat)
      ensures View() == NewPool(size)
    {
      this.size := size;
      conns, sem, open, dialled, calls, leaked := map[], 0, {}, 0, map[], 0;
    }

    /** reachable says what dialling would do. It blocks while Sem is full. */
    method GetOrCreateNewWsClient(ghost t: CallId, userId: string, roomId: string, reachable: bool)
      returns (client: Option<ClientId>, ghost trace: seq<PoolAction>)
      requires t !in calls && (GetKey(userId, roomId) in conns || sem < size)
      modifies this
      ensures PoolRun(old(View()), trace, View())
      ensures var key := GetKey(userId, roomId);
        if key in old(conns) then client == Some(old(conns)[key]) && conns == old(conns) && sem == old(sem)
        else if reachable then
          client == Some(old(dialled)) && conns == old(conns)[key := old(dialled)] && sem == old(sem) + 1
          && old(dialled) in open
        else client == None && conns == old(conns) && sem == old(sem)
    {
      ghost var p := View();
      var key := GetKey(userId, roomId);
      if key in conns {
        AskedRuns(p, t, key);
        trace := [Ask(t, key), Look(t)];
        calls := calls[t := Returned(key, conns[key])];
        return Some(conns[key]), trace;
      }
      var c;
      c, trace := Dial(t, key, reachable);
      if c.None? {
        return None, trace;
      }
      var pooled;
      ghost var rest;
      ghost var p1 := View();
      pooled, rest := InsertOrReuse(t, key, c.value);
      PoolRunConcat(p, trace, p1, rest, View());
      trace := trace + rest;
      client := Some(pooled);
    }

    /** After the miss: a token, then the connection; without it the token goes
        back. */
    method Dial(ghost t: CallId, key: string, reachable: bool)
      returns (c: Option<ClientId>, ghost trace: seq<PoolAction>)
      requires t !in calls && key !in conns && sem < size
      modifies this`sem, this`open, this`dialled, this`calls
      ensures PoolRun(old(View()), trace, View()) && conns == old(conns)
      ensures c == if reachable then Some(old(dialled)) else None
      ensures c.None? ==> sem == old(sem) && open == old(open)
      ensures c.Some? ==>
        sem == old(sem) + 1 && open == old(open) + {c.value} && t in calls && calls[t] == Dialled(key, c.value)
    {
      sem := sem + 1;
      if !reachable {
        FailedRuns(old(View()), t, key);
        trace := [Ask(t, key), Look(t)] + [Acquire(t)] + [DialFail(t)] + [Release(t)];
        sem := sem - 1;
        calls := calls[t := Errored(key)];
        return None, trace;
      }
      c := Some(dialled);
      open, dialled := open + {dialled}, dialled + 1;
      DialledRuns(old(View()), t, key);
      trace := [Ask(t, key), Look(t)] + [Acquire(t)] + [DialOk(t)];
      calls := calls[t := Dialled(key, c.value)];
    }

    /** The second look, under the write lock, with other calls having run since
        the first: somebody else's client wins, and the spare is closed and its
        token returned. */
    method InsertOrReuse(ghost t: CallId, key: string, c: ClientId)
        returns (client: ClientId, ghost trace: seq<PoolAction>)
      requires t in calls && calls[t] == Dialled(key, c) && sem > 0
      modifies this`conns, this`open, this`sem, this`calls
      ensures PoolRun(old(View()), trace, View())
      ensures if key in old(conns) then
          client == old(conns)[key] && conns == old(conns) && open == old(open) - {c} && sem == old(sem) - 1
        else client == c && conns == old(conns)[key := c] && open == old(open) && sem == old(sem)
    {
      if key in conns {
        ReusedRuns(View(), t);
        trace := [LookAgain(t)] + [CloseSpare(t)] + [Release(t)];
        client := conns[key];
        open := open - {c};
        sem := sem - 1;
      } else {
        InsertedRuns(View(), t);
        trace := [LookAgain(t)];
        client := c;
        conns := conns[key := c];
      }
      calls := calls[t := Returned(key, client)];
    }

    method Remove(ghost t: CallId, userId: string, roomId: string) returns (ghost trace: seq<PoolAction>)
      requires t !in calls && TokensOk(View())
      modifies this
      ensures PoolRun(old(View()), trace, View())
      ensures var key := GetKey(userId, roomId);
        if key in old(conns) then
          conns == old(conns) - {key} && sem == old(sem) - 1 && open == old(open) - {old(conns)[key]}
        else conns == old(conns) && sem == old(sem) && open == old(open)
    {
      var key := GetKey(userId, roomId);
      if key in conns {
        PooledHasToken(View(), key);
        RemovedRuns(View(), t, key);
        trace := [AskRemove(t, key)] + [CloseEvicted(t)] + [Release(t)];
        var c := conns[key];
        conns := conns - {key};
        open := open - {c};
        sem := sem - 1;
      } else {
        NotFoundRuns(View(), t, key);
        trace := [AskRemove(t, key)];
      }
      calls := calls[t := RemoveDone];
    }

    /** Under the lock: close and delete every connection; Sem is untouched. */
    method CloseAll()
      modifies this
      ensures View() == PoolNext(old(View()), CloseAllConns)
      ensures conns == map[] && sem == old(sem) && open == old(open) - old(conns).Values
    {
      ghost var conns0, open0 := conns, open;
      leaked := leaked + |conns|;
      while conns != map[]
        invariant conns.Keys <= conns0.Keys && forall k :: k in conns ==> conns[k] == conns0[k]
        invariant open == open0 - (set k | k in conns0 && k !in conns :: conns0[k])
        invariant leaked == old(leaked) + |conns0| && sem == old(sem) && dialled == old(dialled) && calls == old(calls)
        decreases conns.Keys
      {
        var k :| k in conns;
        ghost var gone := set l | l in conns0 && l !in conns :: conns0[l];
        open := open - {conns[k]};
        conns := conns - {k};
        assert (set l | l in conns0 && l !in conns :: conns0[l]) == gone + {conns0[k]};
      }
      assert (set k | k in conns0 && k !in conns :: conns0[k]) == conns0.Values;
    }
  }
}
