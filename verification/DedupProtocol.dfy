/** Many dispatches sharing one dedup store: claim, run the handler, then record or release.

    Each step below is atomic, as the steps between two `await`s are; any interleaving of
    dispatches and of the clock is a sequence of such steps. */
module DedupProtocol {
  import opened Basics
  import opened OrderedMap
  import opened DedupStore

  datatype Settings = Settings(ttlMs: int, maxEntries: int)

  /** A handler that is running: its key, and when the claim it was granted expires. */
  datatype Handler = Handler(key: string, expiresAt: int)

  datatype State<R> = State(table: Table<R>, now: int, active: map<nat, Handler>)

  datatype Action<R> =
    | Tick(now: int)
    | Arrive(id: nat, key: string)
    | Finish(id: nat, reply: R)
    | Fail(id: nat)

  predicate Enabled<R>(s: State<R>, a: Action<R>) {
    match a
    case Tick(now) => s.now <= now
    case Arrive(id, _) => id !in s.active
    case Finish(id, _) => id in s.active
    case Fail(id) => id in s.active
  }

  /** What the dispatch that arrives is told. */
  function AnswerOf<R>(s: State<R>, key: string): Answer<R> {
    AnswerTo(s.table, key, s.now)
  }

  function Next<R>(c: Settings, s: State<R>, a: Action<R>): State<R>
    requires Enabled(s, a)
  {
    match a
    case Tick(now) => s.(now := now)
    case Arrive(id, key) =>
      State(AfterClaim(s.table, key, s.now, c.ttlMs, c.maxEntries), s.now,
            if AnswerOf(s, key).Claimed? then s.active[id := Handler(key, s.now + c.ttlMs)] else s.active)
    case Finish(id, reply) =>
      State(AfterReply(s.table, s.active[id].key, reply, s.now, c.ttlMs), s.now, s.active - {id})
    case Fail(id) =>
      State(Delete(s.table, s.active[id].key), s.now, s.active - {id})
  }

  /** At most one handler is active per key. */
  ghost predicate Exclusive<R>(s: State<R>) {
    forall i, j | i in s.active && j in s.active && s.active[i].key == s.active[j].key :: i == j
  }

  /** Every active handler's claim is in the table, without a reply, and has not expired. */
  ghost predicate Covered<R>(s: State<R>) {
    forall i | i in s.active :: CoveredBy(s.table, s.now, s.active[i])
  }

  predicate CoveredBy<R>(t: Table<R>, now: int, h: Handler) {
    Get(t, h.key) == Some(Claim(h.expiresAt, None)) && now < h.expiresAt
  }

  ghost predicate Good<R>(s: State<R>) {
    Distinct(s.table) && Exclusive(s) && Covered(s)
  }

  /** The entries that a granted claim for `key` pushes out of the table. */
  function PushedOut<R>(c: Settings, s: State<R>, key: string): Table<R> {
    Oldest(EvictExpired(s.table, s.now) + [Slot(key, Claim(s.now + c.ttlMs, None))], c.maxEntries)
  }

  function Oldest<R>(all: Table<R>, maxEntries: int): Table<R> {
    all[..Overflow(|all|, maxEntries)]
  }

  /** No handler outlives its claim, and no granted claim pushes out an active one or itself. */
  ghost predicate Timely<R>(c: Settings, s: State<R>, a: Action<R>) {
    match a
    case Tick(now) => forall i | i in s.active :: now < s.active[i].expiresAt
    case Arrive(_, key) =>
      AnswerOf(s, key).Claimed? ==>
        c.ttlMs > 0 && !Has(PushedOut(c, s, key), key) &&
        forall i | i in s.active :: !Has(PushedOut(c, s, key), s.active[i].key)
    case _ => true
  }

  // ----- the table, key by key -----

  lemma GetAfterEvict<R>(t: Table<R>, now: int, key: string)
    requires Distinct(t)
    ensures Distinct(EvictExpired(t, now))
    ensures Get(EvictExpired(t, now), key) ==
            if Get(t, key).Some? && Get(t, key).value.expiresAt > now then Get(t, key) else None
  {
    EvictDistinct(t, now);
    var here, there := Get(t, key), Get(EvictExpired(t, now), key);
    if here.Some? && here.value.expiresAt > now { LiveSurvives(t, now, key); }
    if there.Some? { SurvivorIsLive(t, now, key); }
  }

  lemma LiveSurvives<R>(t: Table<R>, now: int, key: string)
    requires Distinct(t) && Get(t, key).Some? && Get(t, key).value.expiresAt > now
    ensures Get(EvictExpired(t, now), key) == Get(t, key)
  {
    var i :| 0 <= i < |t| && t[i] == Slot(key, Get(t, key).value);
    EvictDistinct(t, now);
    EvictLeaves(t, now, i);
    GetIs(EvictExpired(t, now), t[i]);
  }

  lemma SurvivorIsLive<R>(t: Table<R>, now: int, key: string)
    requires Distinct(t) && Get(EvictExpired(t, now), key).Some?
    ensures Get(t, key) == Get(EvictExpired(t, now), key) && Get(t, key).value.expiresAt > now
  {
    var r := EvictExpired(t, now);
    EvictKeeps(t, now);
    var j :| 0 <= j < |r| && r[j] == Slot(key, Get(r, key).value);
    GetIs(t, r[j]);
  }

  lemma GetAfterSet<V>(m: seq<Slot<V>>, key: string, value: V, other: string)
    requires Distinct(m)
    ensures Distinct(Set(m, key, value))
    ensures Get(Set(m, key, value), other) == if other == key then Some(value) else Get(m, other)
  {
    var r := Set(m, key, value);
    SetDistinct(m, key, value);
    if other == key {
      if Has(m, key) {
        var i :| 0 <= i < |m| && m[i].key == key;
        assert r[i] == Slot(key, value);
      } else {
        assert r[|m|] == Slot(key, value);
      }
      GetIs(r, Slot(key, value));
    } else {
      if Has(m, other) {
        var i :| 0 <= i < |m| && m[i] == Slot(other, Get(m, other).value);
        assert r[i] == m[i];
        GetIs(r, m[i]);
      }
      if Has(r, other) {
        var i :| 0 <= i < |r| && r[i].key == other;
        assert m[i].key == other;
      }
    }
  }

  lemma GetAfterFail<V>(m: seq<Slot<V>>, key: string, other: string)
    requires Distinct(m)
    ensures Distinct(Delete(m, key))
    ensures Get(Delete(m, key), other) == if other == key then None else Get(m, other)
  {
    DeleteDistinct(m, key);
    DeleteKeeps(m, key);
    if other != key { GetAfterDelete(m, key, other); }
  }

  /** Cutting off the oldest entries removes exactly those. */
  lemma GetAfterCut<V>(m: seq<Slot<V>>, n: nat, key: string)
    requires Distinct(m) && n <= |m|
    ensures Distinct(m[n..])
    ensures Get(m[n..], key) == if Has(m[..n], key) then None else Get(m, key)
  {
    assert forall j | 0 <= j < |m| - n :: m[n..][j] == m[n + j];
    if Has(m[..n], key) {
      CutAway(m, n, key);
    } else if Has(m, key) {
      CutLeaves(m, n, key);
    } else {
      forall j | 0 <= j < |m| - n ensures m[n..][j].key != key {
        assert m[n + j].key != key;
      }
    }
  }

  lemma CutAway<V>(m: seq<Slot<V>>, n: nat, key: string)
    requires Distinct(m) && n <= |m| && Has(m[..n], key)
    ensures !Has(m[n..], key)
  {
    var i :| 0 <= i < n && m[..n][i].key == key;
    forall j | 0 <= j < |m| - n ensures m[n..][j].key != key {
      assert m[n..][j] == m[n + j] && m[n + j].key != m[i].key;
    }
  }

  lemma CutLeaves<V>(m: seq<Slot<V>>, n: nat, key: string)
    requires Distinct(m) && n <= |m| && !Has(m[..n], key) && Has(m, key) && Distinct(m[n..])
    ensures Get(m[n..], key) == Get(m, key)
  {
    var i :| 0 <= i < |m| && m[i] == Slot(key, Get(m, key).value);
    forall j | 0 <= j < n ensures m[j].key != key {
      assert m[..n][j] == m[j];
    }
    assert m[n..][i - n] == m[i];
    GetIs(m[n..], m[i]);
  }

  /** Looking a key up after appending a new entry and cutting the table to size. */
  lemma GetAfterFit<R>(live: Table<R>, slot: Slot<Claim<R>>, maxEntries: int, other: string)
    requires Distinct(live) && !Has(live, slot.key)
    ensures var all := live + [slot];
            var t := EnforceCapacity(all, maxEntries);
            && Distinct(t)
            && Get(t, other) == if Has(Oldest(all, maxEntries), other) then None
                                else if other == slot.key then Some(slot.value) else Get(live, other)
  {
    var all := live + [slot];
    GetAfterSet(live, slot.key, slot.value, other);
    assert Set(live, slot.key, slot.value) == all;
    GetAfterCut(all, Overflow(|all|, maxEntries), other);
  }

  lemma ClaimedIsNew<R>(c: Settings, s: State<R>, key: string, live: Table<R>, all: Table<R>)
    requires AnswerOf(s, key).Claimed? && live == EvictExpired(s.table, s.now)
    requires all == live + [Slot(key, Claim(s.now + c.ttlMs, None))]
    ensures !Has(live, key) && PushedOut(c, s, key) == Oldest(all, c.maxEntries)
    ensures AfterClaim(s.table, key, s.now, c.ttlMs, c.maxEntries) == EnforceCapacity(all, c.maxEntries)
  {
  }

  lemma GetAfterGrant<R>(c: Settings, s: State<R>, key: string, other: string)
    requires Distinct(s.table) && AnswerOf(s, key).Claimed?
    ensures var t := AfterClaim(s.table, key, s.now, c.ttlMs, c.maxEntries);
            && Distinct(t)
            && Get(t, other) ==
               if Has(PushedOut(c, s, key), other) then None
               else if other == key then Some(Claim(s.now + c.ttlMs, None))
               else Get(EvictExpired(s.table, s.now), other)
  {
    var live, slot: Slot<Claim<R>> := EvictExpired(s.table, s.now), Slot(key, Claim(s.now + c.ttlMs, None));
    EvictDistinct(s.table, s.now);
    ClaimedIsNew(c, s, key, live, live + [slot]);
    GetAfterFit(live, slot, c.maxEntries, other);
  }

  lemma AnswerIs<R>(s: State<R>, key: string)
    requires Distinct(s.table)
    ensures var found := Get(s.table, key);
            AnswerOf(s, key) ==
            if found.None? || found.value.expiresAt <= s.now then Claimed
            else if found.value.reply.Some? then Duplicate(found.value.reply.value)
            else InFlight
  {
    GetAfterEvict(s.table, s.now, key);
  }

  // ----- every step -----

  lemma TickKeeps<R>(c: Settings, s: State<R>, now: int)
    requires Good(s) && s.now <= now
    ensures Good(Next(c, s, Tick(now))) <==> Timely(c, s, Tick(now))
  {
    assert forall i | i in s.active :: CoveredBy(s.table, s.now, s.active[i]);
    var r := Next(c, s, Tick(now));
    if Good(r) {
      assert forall i | i in r.active :: CoveredBy(r.table, r.now, r.active[i]);
    }
  }

  lemma RepeatKeeps<R>(c: Settings, s: State<R>, id: nat, key: string)
    requires Good(s) && id !in s.active && !AnswerOf(s, key).Claimed?
    ensures Good(Next(c, s, Arrive(id, key)))
  {
    var r := Next(c, s, Arrive(id, key));
    GetAfterEvict(s.table, s.now, key);
    assert r.table == EvictExpired(s.table, s.now);
    forall i | i in s.active ensures CoveredBy(r.table, s.now, s.active[i]) {
      assert CoveredBy(s.table, s.now, s.active[i]);
      GetAfterEvict(s.table, s.now, s.active[i].key);
    }
  }

  /** The table after a granted claim covers a handler of another key unless it was pushed out. */
  lemma GrantCovers<R>(c: Settings, s: State<R>, key: string, h: Handler)
    requires Distinct(s.table) && AnswerOf(s, key).Claimed? && CoveredBy(s.table, s.now, h)
    ensures h.key != key
    ensures CoveredBy(AfterClaim(s.table, key, s.now, c.ttlMs, c.maxEntries), s.now, h) <==>
            !Has(PushedOut(c, s, key), h.key)
  {
    AnswerIs(s, key);
    GetAfterGrant(c, s, key, h.key);
    GetAfterEvict(s.table, s.now, h.key);
  }

  lemma CoveredGrows<R>(s: State<R>, id: nat, h: Handler, t: Table<R>)
    requires id !in s.active
    ensures Covered(State(t, s.now, s.active[id := h])) <==>
            CoveredBy(t, s.now, h) && forall i | i in s.active :: CoveredBy(t, s.now, s.active[i])
  {
    var r := State(t, s.now, s.active[id := h]);
    assert forall i | i in s.active :: i in r.active && r.active[i] == s.active[i];
    if Covered(r) {
      assert CoveredBy(t, s.now, r.active[id]);
      assert forall i | i in s.active :: CoveredBy(t, s.now, r.active[i]);
    }
  }

  lemma GrantKeeps<R>(c: Settings, s: State<R>, id: nat, key: string)
    requires Good(s) && id !in s.active && AnswerOf(s, key).Claimed?
    ensures Good(Next(c, s, Arrive(id, key))) <==> Timely(c, s, Arrive(id, key))
  {
    var t := AfterClaim(s.table, key, s.now, c.ttlMs, c.maxEntries);
    var h := Handler(key, s.now + c.ttlMs);
    assert Next(c, s, Arrive(id, key)) == State(t, s.now, s.active[id := h]);
    GrantedKeeps(c, s, id, key, t, h);
  }

  lemma GrantedKeeps<R>(c: Settings, s: State<R>, id: nat, key: string, t: Table<R>, h: Handler)
    requires Good(s) && id !in s.active && AnswerOf(s, key).Claimed? && h == Handler(key, s.now + c.ttlMs)
    requires t == AfterClaim(s.table, key, s.now, c.ttlMs, c.maxEntries)
    ensures Good(State(t, s.now, s.active[id := h])) <==> Timely(c, s, Arrive(id, key))
  {
    GrantCoversOthers(c, s, key, t);
    GrantCoversNew(c, s, key, t, h);
    GrantedIsGood(s, id, h, t);
    TimelyGrant(c, s, id, key, PushedOut(c, s, key), t, h);
  }

  lemma TimelyGrant<R>(c: Settings, s: State<R>, id: nat, key: string, pushed: Table<R>, t: Table<R>, h: Handler)
    requires AnswerOf(s, key).Claimed? && pushed == PushedOut(c, s, key)
    requires CoveredBy(t, s.now, h) <==> c.ttlMs > 0 && !Has(pushed, key)
    requires forall i | i in s.active :: CoveredBy(t, s.now, s.active[i]) <==> !Has(pushed, s.active[i].key)
    ensures Timely(c, s, Arrive(id, key)) <==>
            CoveredBy(t, s.now, h) && forall i | i in s.active :: CoveredBy(t, s.now, s.active[i])
  {
  }

  lemma GrantCoversOthers<R>(c: Settings, s: State<R>, key: string, t: Table<R>)
    requires Good(s) && AnswerOf(s, key).Claimed? && t == AfterClaim(s.table, key, s.now, c.ttlMs, c.maxEntries)
    ensures forall i | i in s.active ::
              s.active[i].key != key &&
              (CoveredBy(t, s.now, s.active[i]) <==> !Has(PushedOut(c, s, key), s.active[i].key))
  {
    forall i | i in s.active
      ensures s.active[i].key != key &&
              (CoveredBy(t, s.now, s.active[i]) <==> !Has(PushedOut(c, s, key), s.active[i].key))
    {
      assert CoveredBy(s.table, s.now, s.active[i]);
      GrantCovers(c, s, key, s.active[i]);
    }
  }

  lemma GrantCoversNew<R>(c: Settings, s: State<R>, key: string, t: Table<R>, h: Handler)
    requires Distinct(s.table) && AnswerOf(s, key).Claimed? && h == Handler(key, s.now + c.ttlMs)
    requires t == AfterClaim(s.table, key, s.now, c.ttlMs, c.maxEntries)
    ensures Distinct(t) && (CoveredBy(t, s.now, h) <==> c.ttlMs > 0 && !Has(PushedOut(c, s, key), key))
  {
    GetAfterGrant(c, s, key, key);
  }

  /** With a new handler of another key, the state is good when the table covers all of them. */
  lemma GrantedIsGood<R>(s: State<R>, id: nat, h: Handler, t: Table<R>)
    requires Exclusive(s) && id !in s.active && Distinct(t) && forall i | i in s.active :: s.active[i].key != h.key
    ensures Good(State(t, s.now, s.active[id := h])) <==>
            CoveredBy(t, s.now, h) && forall i | i in s.active :: CoveredBy(t, s.now, s.active[i])
  {
    CoveredGrows(s, id, h, t);
    ExclusiveGrows(s, id, h, t);
  }

  lemma ExclusiveGrows<R>(s: State<R>, id: nat, h: Handler, t: Table<R>)
    requires Exclusive(s) && id !in s.active && forall i | i in s.active :: s.active[i].key != h.key
    ensures Exclusive(State(t, s.now, s.active[id := h]))
  {
  }

  lemma EndKeeps<R>(c: Settings, s: State<R>, a: Action<R>)
    requires Good(s) && (a.Finish? || a.Fail?) && Enabled(s, a)
    ensures Good(Next(c, s, a))
  {
    var r := Next(c, s, a);
    var key := s.active[a.id].key;
    assert CoveredBy(s.table, s.now, s.active[a.id]);
    if a.Finish? {
      GetAfterSet(s.table, key, Claim(s.active[a.id].expiresAt, Some(a.reply)), key);
    } else {
      GetAfterFail(s.table, key, key);
    }
    forall i | i in r.active ensures CoveredBy(r.table, r.now, r.active[i]) {
      assert CoveredBy(s.table, s.now, s.active[i]) && s.active[i].key != key;
      if a.Finish? {
        GetAfterSet(s.table, key, Claim(s.active[a.id].expiresAt, Some(a.reply)), s.active[i].key);
      } else {
        GetAfterFail(s.table, key, s.active[i].key);
      }
    }
  }

  /** Exactly the timely steps keep one covered handler per key. */
  lemma StepIsGoodIffTimely<R>(c: Settings, s: State<R>, a: Action<R>)
    requires Good(s) && Enabled(s, a)
    ensures Good(Next(c, s, a)) <==> Timely(c, s, a)
  {
    match a
    case Tick(now) => TickKeeps(c, s, now);
    case Arrive(id, key) =>
      if AnswerOf(s, key).Claimed? { GrantKeeps(c, s, id, key); } else { RepeatKeeps(c, s, id, key); }
    case _ => EndKeeps(c, s, a);
  }

  /** After a step that is not timely, some key has an active handler and would be granted again
      to the next dispatch that brings it. */
  lemma UntimelyAllowsTwo<R>(c: Settings, s: State<R>, a: Action<R>, id: nat) returns (key: string)
    requires Good(s) && Enabled(s, a) && !Timely(c, s, a) && id !in Next(c, s, a).active
    ensures var r := Next(c, s, a);
            AnswerOf(r, key).Claimed? && !Exclusive(Next(c, r, Arrive(id, key)))
  {
    var r := Next(c, s, a);
    var i: nat;
    match a {
      case Tick(now) =>
        i :| i in s.active && now >= s.active[i].expiresAt;
        key := s.active[i].key;
        assert CoveredBy(s.table, s.now, s.active[i]);
      case Arrive(j, k) =>
        if c.ttlMs <= 0 || Has(PushedOut(c, s, k), k) {
          i := j;
        } else {
          i :| i in s.active && Has(PushedOut(c, s, k), s.active[i].key);
        }
        key := r.active[i].key;
        GetAfterGrant(c, s, k, key);
    }
    AnswerIs(r, key);
    var twice := Next(c, r, Arrive(id, key));
    assert twice.active[i].key == key == twice.active[id].key && i != id;
  }

  // ----- whole interleavings -----

  /** The actions can be taken one after the other, each of them timely. */
  ghost predicate TimelyRun<R>(c: Settings, s: State<R>, actions: seq<Action<R>>)
    decreases |actions|
  {
    actions == [] ||
    (Enabled(s, actions[0]) && Timely(c, s, actions[0]) && TimelyRun(c, Next(c, s, actions[0]), actions[1..]))
  }

  function RunActions<R>(c: Settings, s: State<R>, actions: seq<Action<R>>): State<R>
    requires TimelyRun(c, s, actions)
    decreases |actions|
  {
    if actions == [] then s else RunActions(c, Next(c, s, actions[0]), actions[1..])
  }

  function Start<R>(now: int): State<R> {
    State([], now, map[])
  }

  /** In every timely interleaving at most one handler is active per key. */
  lemma {:induction false} TimelyRunsAreGood<R>(c: Settings, s: State<R>, actions: seq<Action<R>>)
    requires Good(s) && TimelyRun(c, s, actions)
    ensures Good(RunActions(c, s, actions))
    decreases |actions|
  {
    if actions != [] {
      StepIsGoodIffTimely(c, s, actions[0]);
      TimelyRunsAreGood(c, Next(c, s, actions[0]), actions[1..]);
    }
  }

  lemma StartIsGood<R>(now: int)
    ensures Good(Start<R>(now))
  {
  }

  /** While a handler is active, every other dispatch of its message is told so. */
  lemma RepeatWhileActive<R>(s: State<R>, id: nat)
    requires Good(s) && id in s.active
    ensures AnswerOf(s, s.active[id].key) == InFlight
  {
    assert CoveredBy(s.table, s.now, s.active[id]);
    AnswerIs(s, s.active[id].key);
  }

  /** A failed handler makes its message claimable again. */
  lemma FailureReopens<R>(c: Settings, s: State<R>, id: nat)
    requires Good(s) && id in s.active
    ensures AnswerOf(Next(c, s, Fail(id)), s.active[id].key) == Claimed
  {
    var key := s.active[id].key;
    GetAfterFail(s.table, key, key);
    AnswerIs(Next(c, s, Fail(id)), key);
  }

  /** The reply recorded for a key is still in the table. */
  ghost predicate Remembers<R>(s: State<R>, key: string, claim: Claim<R>) {
    claim.reply.Some? && Get(s.table, key) == Some(claim)
  }

  /** No step waits until the reply expires, and none pushes it out of the table. */
  ghost predicate Spares<R>(c: Settings, s: State<R>, key: string, expiresAt: int, actions: seq<Action<R>>)
    requires TimelyRun(c, s, actions)
    decreases |actions|
  {
    actions == [] ||
    (&& (actions[0].Tick? ==> actions[0].now < expiresAt)
     && (actions[0].Arrive? && AnswerOf(s, actions[0].key).Claimed? ==> !Has(PushedOut(c, s, actions[0].key), key))
     && Spares(c, Next(c, s, actions[0]), key, expiresAt, actions[1..]))
  }

  lemma StepRemembers<R>(c: Settings, s: State<R>, a: Action<R>, key: string, claim: Claim<R>)
    requires Good(s) && Enabled(s, a) && Remembers(s, key, claim) && s.now < claim.expiresAt
    requires a.Arrive? && AnswerOf(s, a.key).Claimed? ==> !Has(PushedOut(c, s, a.key), key)
    ensures Remembers(Next(c, s, a), key, claim)
  {
    match a
    case Tick(_) =>
    case Arrive(_, k) =>
      GetAfterEvict(s.table, s.now, key);
      AnswerIs(s, key);
      GetAfterEvict(s.table, s.now, k);
      if AnswerOf(s, k).Claimed? { GetAfterGrant(c, s, k, key); }
    case Finish(id, reply) =>
      var h := s.active[id];
      assert CoveredBy(s.table, s.now, h) && h.key != key;
      GetAfterSet(s.table, h.key, Claim(h.expiresAt, Some(reply)), key);
    case Fail(id) =>
      var h := s.active[id];
      assert CoveredBy(s.table, s.now, h) && h.key != key;
      GetAfterFail(s.table, h.key, key);
  }

  lemma {:induction false} RunRemembers<R>(c: Settings, s: State<R>, actions: seq<Action<R>>, key: string,
                                           claim: Claim<R>)
    requires Good(s) && TimelyRun(c, s, actions) && Remembers(s, key, claim) && s.now < claim.expiresAt
    requires Spares(c, s, key, claim.expiresAt, actions)
    ensures var r := RunActions(c, s, actions); Good(r) && Remembers(r, key, claim) && r.now < claim.expiresAt
    decreases |actions|
  {
    if actions != [] {
      StepIsGoodIffTimely(c, s, actions[0]);
      StepRemembers(c, s, actions[0], key, claim);
      RunRemembers(c, Next(c, s, actions[0]), actions[1..], key, claim);
    }
  }

  /** Inside its window, and while it is not pushed out, a finished message is answered with
      exactly the recorded reply. */
  lemma RepeatAfterFinish<R>(c: Settings, s: State<R>, id: nat, reply: R, actions: seq<Action<R>>)
    requires Good(s) && id in s.active
    requires var r := Next(c, s, Finish(id, reply));
             TimelyRun(c, r, actions) && Spares(c, r, s.active[id].key, s.active[id].expiresAt, actions)
    ensures AnswerOf(RunActions(c, Next(c, s, Finish(id, reply)), actions), s.active[id].key) == Duplicate(reply)
  {
    var h := s.active[id];
    var r := Next(c, s, Finish(id, reply));
    assert CoveredBy(s.table, s.now, h);
    StepIsGoodIffTimely(c, s, Finish(id, reply));
    GetAfterSet(s.table, h.key, Claim(h.expiresAt, Some(reply)), h.key);
    RunRemembers(c, r, actions, h.key, Claim(h.expiresAt, Some(reply)));
    AnswerIs(RunActions(c, r, actions), h.key);
  }

  // ----- one dispatch on its own -----

  datatype Handled<R> = Replied(reply: R) | Raised(error: string)

  datatype Dispatched<R> = Returned(reply: R) | InFlightReply | Rethrown(error: string)

  class SocketModule<R> {
    const dedup: InMemoryDedupStore<R>

    constructor (dedup: InMemoryDedupStore<R>)
      ensures this.dedup == dedup
    {
      this.dedup := dedup;
    }

    /** `handled` is what the runtime does with the message, if it is asked to; `later` is when. */
    method Dispatch(key: string, now: int, handled: Handled<R>, later: int) returns (result: Dispatched<R>)
      requires dedup.Valid()
      modifies dedup
      ensures dedup.Valid()
      ensures var claimed := AfterClaim(old(dedup.entries), key, now, dedup.ttlMs, dedup.maxEntries);
              match AnswerTo(old(dedup.entries), key, now)
              case Duplicate(reply) => result == Returned(reply) && dedup.entries == claimed
              case InFlight => result == InFlightReply && dedup.entries == claimed
              case Claimed =>
                match handled
                case Replied(reply) =>
                  result == Returned(reply) && dedup.entries == AfterReply(claimed, key, reply, later, dedup.ttlMs)
                case Raised(error) => result == Rethrown(error) && dedup.entries == Delete(claimed, key)
    {
      var claim := dedup.TryClaim(key, now);
      match claim {
        case Duplicate(reply) => return Returned(reply);
        case InFlight => return InFlightReply;
        case Claimed =>
          match handled {
            case Replied(reply) =>
              dedup.RecordReply(key, reply, later);
              return Returned(reply);
            case Raised(error) =>
              dedup.Release(key);
              return Rethrown(error);
          }
      }
    }
  }
}
