/**
How long the worker leaves a waiting user alone who gives no sign of life. The join sets a
timer of a whole timeout; what can end the wait before it runs out is said exactly.
*/
module Grace {
  import opened Models
  import opened CacheScripts
  import opened DurableTx
  import opened Service
  import opened Invariants
  import opened Operations
  import opened Joining
  import opened Expiry
  import opened Restart
  import opened System
  import opened Progress
  import opened Frames
  import opened Absence
  import T = Timers
  import L = LeaseProtocol

  // ---- The timers of one user ----

  // The schedule's deadline, and the lease and the deadline of the one in processing.
  datatype Spot = Spot(due: Option<Second>, lease: Option<Time>, claimed: Option<Second>)

  function Find<V>(m: map<UserId, V>, u: UserId): Option<V> {
    if u in m then Some(m[u]) else None
  }

  function At(t: T.Timers, u: UserId): Spot {
    Spot(Find(t.scheduled, u), Find(t.processing, u), Find(t.deadlines, u))
  }

  // Belongs to the wait that began at since, and runs out before grace.
  predicate Early(d: Second, since: Time, grace: Second) {
    since <= d * MILLIS && d < grace
  }

  // Passes that are still to begin will not be early.
  predicate Over(clock: Time, grace: Second) {
    clock + 1 >= grace * MILLIS
  }

  // No timer of the user is early, and one that is stale will not become so when a worker
  // claims it and fails.
  predicate Quiet(p: Spot, since: Time, grace: Second, clock: Time) {
    && (p.due.Some? ==>
          !Early(p.due.value, since, grace)
          && (p.due.value >= grace || clock + 1 + T.RETRY_DELAY >= grace * MILLIS))
    && (p.claimed.Some? ==> !Early(p.claimed.value, since, grace))
    && (p.due.None? && p.lease.Some? ==> p.lease.value + T.RETRY_DELAY >= grace * MILLIS + T.LEASE)
  }

  // Handled, the claim does not drop its user before grace.
  predicate SafeClaim(c: T.Claim, m: Membership, grace: Second) {
    IsStale(c, m) || c.pass >= grace * MILLIS
  }

  // If it is stale, the timer that it sets is not early either, nor will it become so.
  predicate SafeRestore(c: T.Claim, m: Membership, timeout: Time, grace: Second, clock: Time) {
    IsStale(c, m) ==>
      var d := Seconds(c.pass + timeout);
      !Early(d, m.updatedAt, grace) && (d >= grace || clock + 2 + T.RETRY_DELAY >= grace * MILLIS)
  }

  predicate ClaimsSafe(claims: set<T.Claim>, m: Membership, grace: Second) {
    forall c :: c in claims && c.user == m.user ==> SafeClaim(c, m, grace)
  }

  predicate RestoresSafe(open: set<T.Claim>, m: Membership, timeout: Time, grace: Second, clock: Time) {
    forall c :: c in open && c.user == m.user ==> SafeRestore(c, m, timeout, grace, clock)
  }

  predicate Calm(t: T.Timers, open: set<T.Claim>, m: Membership, timeout: Time, grace: Second, clock: Time) {
    Over(clock, grace)
    || (Quiet(At(t, m.user), m.updatedAt, grace, clock) && RestoresSafe(open, m, timeout, grace, clock))
  }

  // Whatever the workers do from clock on, they leave the user alone until grace.
  predicate Shielded(s: State, u: UserId, grace: Second, clock: Time) {
    && Queues(s.db, u)
    && var m := s.db.members[u];
       m.user == u && m.updatedAt <= clock && grace <= Seconds(m.updatedAt + s.cfg.presenceTimeout)
       && (!s.down ==>
             ClaimsSafe(Claims(s), m, grace)
             && Calm(s.cache.timers, s.open, m, s.cfg.presenceTimeout, grace, clock))
  }

  predicate HasGrace(s: State, u: UserId, grace: Second) {
    Shielded(s, u, grace, s.clock)
  }

  // A restart makes the timer due at once. It does no harm if the timer counts as older than
  // the wait or no early pass is left, and if a timer that is claimed and returned is late.
  predicate SafeRestart(at: Time, since: Time, grace: Second) {
    !(since <= Seconds(at) * MILLIS && at + 1 < grace * MILLIS) && at + 1 + T.RETRY_DELAY >= grace * MILLIS
  }

  // ---- What keeps grace ----

  lemma {:induction false} Later(s: State, s': State, u: UserId, grace: Second, clock: Time, now: Time)
    requires Shielded(s, u, grace, clock) && clock <= now
    requires s' == s.(clock := s'.clock, faults := s'.faults)
    ensures Shielded(s', u, grace, now)
  {
    assert Claims(s') == Claims(s);
  }

  // Steps that move the timers of others only.
  lemma {:induction false} StaysShielded(s: State, s': State, u: UserId, grace: Second, clock: Time)
    requires Shielded(s, u, grace, clock) && !s.down && LeavesTimer(s, s', u)
    requires Queues(s'.db, u) && s'.db.members[u] == s.db.members[u] && s'.cfg == s.cfg
    requires Claims(s') <= Claims(s) && s'.open <= s.open
    ensures Shielded(s', u, grace, clock)
  {
    if !s'.down {
      assert At(s'.cache.timers, u) == At(s.cache.timers, u);
    }
  }

  // Steps of the timer machinery that claim nothing.
  lemma {:induction false} QuietTimersShield(s: State, s': State, u: UserId, grace: Second, clock: Time, now: Time)
    requires Shielded(s, u, grace, clock) && !s.down && clock <= now
    requires s'.db == s.db && s'.cfg == s.cfg && s'.down == s.down
    requires Claims(s') <= Claims(s) && s'.open <= s.open
    requires Quiet(At(s.cache.timers, u), s.db.members[u].updatedAt, grace, clock) ==>
      Quiet(At(s'.cache.timers, u), s.db.members[u].updatedAt, grace, now)
    ensures Shielded(s', u, grace, now)
  {
  }

  lemma {:induction false} AckOneIsQuiet(t: T.Timers, c: T.Claim, u: UserId, since: Time, grace: Second, clock: Time)
    requires Quiet(At(t, u), since, grace, clock)
    ensures Quiet(At(T.AckOne(t, c), u), since, grace, clock)
  {
  }

  lemma {:induction false} AckIsQuiet(t: T.Timers, cs: seq<T.Claim>, u: UserId, since: Time, grace: Second, clock: Time)
    requires Quiet(At(t, u), since, grace, clock)
    ensures Quiet(At(T.Ack(t, cs), u), since, grace, clock)
    decreases |cs|
  {
    if cs != [] {
      AckOneIsQuiet(t, cs[0], u, since, grace, clock);
      AckIsQuiet(T.AckOne(t, cs[0]), cs[1..], u, since, grace, clock);
    }
  }

  // A returned timer is due a second after the pass that failed.
  lemma {:induction false} NackOneIsQuiet(t: T.Timers, c: T.Claim, u: UserId, since: Time, grace: Second, clock: Time)
    requires Quiet(At(t, u), since, grace, clock) && c.lease == c.pass + T.LEASE
    ensures Quiet(At(T.NackOne(t, c), u), since, grace, clock)
  {
  }

  lemma {:induction false} NackIsQuiet(t: T.Timers, cs: seq<T.Claim>, u: UserId, since: Time, grace: Second, clock: Time)
    requires Quiet(At(t, u), since, grace, clock) && forall c :: c in cs ==> c.lease == c.pass + T.LEASE
    ensures Quiet(At(T.Nack(t, cs), u), since, grace, clock)
    decreases |cs|
  {
    if cs != [] {
      NackOneIsQuiet(t, cs[0], u, since, grace, clock);
      NackIsQuiet(T.NackOne(t, cs[0]), cs[1..], u, since, grace, clock);
    }
  }

  lemma {:induction false} ReclaimIsQuiet(t: T.Timers, u: UserId, since: Time, grace: Second, clock: Time, now: Time)
    requires Quiet(At(t, u), since, grace, clock) && clock <= now && t.deadlines.Keys == t.processing.Keys
    ensures Quiet(At(T.Reclaim(t, now), u), since, grace, now)
  {
  }

  lemma {:induction false} WorkerMovesTimers(s: State, e: Event, now: Time)
    requires e.Ack? || e.Nack? || e.Reclaim? || (e.GiveUp? && e.claim in s.open)
    ensures var s' := Effect(s, e, now);
      && s'.db == s.db && s'.cfg == s.cfg && s'.down == s.down
      && Claims(s') <= Claims(s) && s'.open <= s.open
  {
  }

  lemma {:induction false} WorkerKeepsGrace(s: State, e: Event, u: UserId, grace: Second, now: Time)
    requires Inv(s) && !s.down && HasGrace(s, u, grace) && Possible(s, Step(e, now, Healthy))
    requires e.Ack? || e.Nack? || e.Reclaim? || e.GiveUp?
    ensures Shielded(Effect(s, e, now), u, grace, now)
  {
    var t, since := s.cache.timers, s.db.members[u].updatedAt;
    if Quiet(At(t, u), since, grace, s.clock) {
      WorkerIsQuiet(s, e, u, since, grace, now);
    }
    WorkerMovesTimers(s, e, now);
    QuietTimersShield(s, Effect(s, e, now), u, grace, s.clock, now);
  }

  lemma {:induction false} WorkerIsQuiet(s: State, e: Event, u: UserId, since: Time, grace: Second, now: Time)
    requires Inv(s) && !s.down && Quiet(At(s.cache.timers, u), since, grace, s.clock) && Possible(s, Step(e, now, Healthy))
    requires e.Ack? || e.Nack? || e.Reclaim? || e.GiveUp?
    ensures Quiet(At(Effect(s, e, now).cache.timers, u), since, grace, now)
  {
    var t := s.cache.timers;
    match e
    case Ack(cs) => AckIsQuiet(t, cs, u, since, grace, s.clock);
    case Nack(cs) => NackIsQuiet(t, cs, u, since, grace, s.clock);
    case Reclaim => ReclaimIsQuiet(t, u, since, grace, s.clock, now);
    case GiveUp(c) =>
  }

  // ---- Claiming ----

  lemma {:induction false} TakenSpot(t: T.Timers, taken: set<UserId>, lease: Time, u: UserId)
    requires taken <= t.scheduled.Keys
    ensures At(L.TakeAll(t, taken, lease), u)
         == if u in taken then Spot(None, Some(lease), Some(t.scheduled[u])) else At(t, u)
  {
  }

  // Claimed now, a timer that is not early makes a claim that is stale or late.
  lemma {:induction false} ClaimedSpot(p: Spot, m: Membership, grace: Second, clock: Time, now: Time)
    requires p.due.Some? && p.due.value * MILLIS <= now && clock < now
    requires Over(clock, grace) || Quiet(p, m.updatedAt, grace, clock)
    ensures m.updatedAt <= p.due.value * MILLIS ==> now >= grace * MILLIS
    ensures Over(now, grace) || Quiet(Spot(None, Some(now + T.LEASE), p.due), m.updatedAt, grace, now)
  {
  }

  lemma {:induction false} TakenIsQuiet(t: T.Timers, t': T.Timers, taken: set<UserId>, batch: seq<T.Claim>,
    m: Membership, grace: Second, clock: Time, now: Time, limit: nat)
    requires L.IsBatch(t, taken, t', batch, now, limit) && clock < now
    requires Over(clock, grace) || Quiet(At(t, m.user), m.updatedAt, grace, clock)
    ensures Over(now, grace) || Quiet(At(t', m.user), m.updatedAt, grace, now)
    ensures ClaimsSafe(T.AsSet(batch), m, grace)
  {
    TakenSpot(t, taken, now + T.LEASE, m.user);
    if m.user in taken {
      assert T.IsDue(t, m.user, now);
      ClaimedSpot(At(t, m.user), m, grace, clock, now);
    }
  }

  lemma {:induction false} NewClaimRestores(c: T.Claim, m: Membership, timeout: Time, grace: Second, now: Time)
    requires c.pass == now && m.updatedAt <= now && grace <= Seconds(m.updatedAt + timeout)
    ensures SafeRestore(c, m, timeout, grace, now)
  {
    assert Seconds(m.updatedAt + timeout) <= Seconds(now + timeout);
  }

  lemma {:induction false} ClaimIsCalm(t: T.Timers, t': T.Timers, taken: set<UserId>, batch: seq<T.Claim>, open: set<T.Claim>,
    m: Membership, timeout: Time, grace: Second, clock: Time, now: Time, limit: nat)
    requires L.IsBatch(t, taken, t', batch, now, limit) && clock < now && m.updatedAt <= clock
    requires Calm(t, open, m, timeout, grace, clock) && grace <= Seconds(m.updatedAt + timeout)
    ensures ClaimsSafe(T.AsSet(batch), m, grace)
    ensures Calm(t', open + T.AsSet(batch), m, timeout, grace, now)
  {
    TakenIsQuiet(t, t', taken, batch, m, grace, clock, now, limit);
    forall c | c in T.AsSet(batch)
      ensures SafeRestore(c, m, timeout, grace, now)
    {
      NewClaimRestores(c, m, timeout, grace, now);
    }
  }

  lemma {:induction false} BatchIsCalm(t: T.Timers, t': T.Timers, batch: seq<T.Claim>, open: set<T.Claim>,
    m: Membership, timeout: Time, grace: Second, clock: Time, now: Time, limit: nat)
    requires (t', batch) == T.ClaimDue(t, now, limit) && clock < now && m.updatedAt <= clock
    requires Calm(t, open, m, timeout, grace, clock) && grace <= Seconds(m.updatedAt + timeout)
    ensures ClaimsSafe(T.AsSet(batch), m, grace)
    ensures Calm(t', open + T.AsSet(batch), m, timeout, grace, now)
  {
    var taken := L.BatchIsDue(t, now, limit, t', batch);
    ClaimIsCalm(t, t', taken, batch, open, m, timeout, grace, clock, now, limit);
  }

  lemma {:induction false} ClaimKeepsGrace(s: State, e: Event, u: UserId, grace: Second, now: Time)
    requires Inv(s) && !s.down && HasGrace(s, u, grace) && now > s.clock && e.ClaimDue?
    ensures Shielded(Effect(s, e, now), u, grace, now)
  {
    var (t', batch) := T.ClaimDue(s.cache.timers, now, e.limit);
    BatchIsCalm(s.cache.timers, t', batch, s.open, s.db.members[u], s.cfg.presenceTimeout, grace, s.clock, now, e.limit);
    ClaimedIsShielded(s, s.(cache := s.cache.(timers := t'), open := s.open + T.AsSet(batch)), batch, u, grace, now);
  }

  lemma {:induction false} ClaimedIsShielded(s: State, s': State, batch: seq<T.Claim>, u: UserId, grace: Second, now: Time)
    requires HasGrace(s, u, grace) && !s.down && now > s.clock
    requires s' == s.(cache := s'.cache, open := s.open + T.AsSet(batch))
    requires ClaimsSafe(T.AsSet(batch), s.db.members[u], grace)
    requires Calm(s'.cache.timers, s'.open, s.db.members[u], s.cfg.presenceTimeout, grace, now)
    ensures Shielded(s', u, grace, now)
  {
    assert Claims(s') == Claims(s) + T.AsSet(batch);
  }

  // ---- Signs of life, and the user's own claims ----

  lemma {:induction false} RefreshIsQuiet(t: T.Timers, v: UserId, d: Second, u: UserId, since: Time, grace: Second, clock: Time)
    requires Quiet(At(t, u), since, grace, clock) && d >= grace
    ensures Quiet(At(T.Refresh(t, v, d), u), since, grace, clock)
  {
  }

  // A heartbeat sets timers a whole timeout ahead, if any.
  lemma {:induction false} RefreshSetsLate(s: State, v: UserId, now: Time)
    requires InvAt(s, now) && !s.down
    ensures var (s', d) := (RefreshPresence(s, v, now), Seconds(now + s.cfg.presenceTimeout));
      s' == s.(cache := s'.cache) && (s'.cache.timers == s.cache.timers || s'.cache.timers == T.Refresh(s.cache.timers, v, d))
  {
    PresenceIsTimersOnly(s, v, now);
  }

  lemma {:induction false} RefreshKeepsGrace(s: State, e: Event, u: UserId, grace: Second, now: Time)
    requires InvAt(s, now) && !s.down && HasGrace(s, u, grace) && now > s.clock && e.Appear?
    ensures Shielded(Effect(s, e, now), u, grace, now)
  {
    RefreshSetsLate(s, e.user, now);
    RefreshedIsShielded(s, RefreshPresence(s, e.user, now), e.user, u, grace, now);
  }

  lemma {:induction false} RefreshedIsShielded(s: State, s': State, v: UserId, u: UserId, grace: Second, now: Time)
    requires !s.down && HasGrace(s, u, grace) && now > s.clock && s' == s.(cache := s'.cache)
    requires s'.cache.timers == s.cache.timers
      || s'.cache.timers == T.Refresh(s.cache.timers, v, Seconds(now + s.cfg.presenceTimeout))
    ensures Shielded(s', u, grace, now)
  {
    assert Claims(s') == Claims(s);
    var since, d := s.db.members[u].updatedAt, Seconds(now + s.cfg.presenceTimeout);
    assert Seconds(since + s.cfg.presenceTimeout) <= d;
    if Quiet(At(s.cache.timers, u), since, grace, s.clock) {
      RefreshIsQuiet(s.cache.timers, v, d, u, since, grace, s.clock);
    }
    QuietTimersShield(s, s', u, grace, s.clock, now);
  }

  // A timer set for the user itself that is neither early nor will become so.
  lemma {:induction false} RearmKeepsGrace(s: State, deadline: Time, u: UserId, grace: Second, now: Time)
    requires !s.down && HasGrace(s, u, grace) && now > s.clock
    requires Over(now, grace)
      || (!Early(Seconds(deadline), s.db.members[u].updatedAt, grace)
          && (Seconds(deadline) >= grace || now + 1 + T.RETRY_DELAY >= grace * MILLIS))
    ensures Shielded(s.(cache := AddTimer(s.cache, u, deadline)), u, grace, now)
  {
    assert Claims(s.(cache := AddTimer(s.cache, u, deadline))) == Claims(s);
  }

  lemma {:induction false} StaleKeepsGrace(s: State, m: Membership, c: T.Claim, grace: Second, now: Time)
    requires !s.down && HasGrace(s, m.user, grace) && s.db.members[m.user] == m && c in s.open && c.user == m.user
    requires IsStale(c, m) && m.status.Queued? && m.expiresAt.None? && now > s.clock
    ensures Shielded(RestoreTimer(s, m, c.pass), m.user, grace, now)
  {
    if !Over(s.clock, grace) {
      assert SafeRestore(c, m, s.cfg.presenceTimeout, grace, s.clock);
    }
    RearmKeepsGrace(s, c.pass + s.cfg.presenceTimeout, m.user, grace, now);
  }

  lemma {:induction false} CurrentKeepsGrace(s: State, m: Membership, c: T.Claim, grace: Second, now: Time)
    requires HasGrace(s, m.user, grace) && Cached(s, m) && c in s.open && c.user == m.user && c.pass <= s.clock < now
    requires !IsStale(c, m) && m.status.Queued? && s.db.members[m.user] == m && Queues(ExpireNow(s, m, c.pass, now).0.db, m.user)
    ensures Shielded(ExpireNow(s, m, c.pass, now).0, m.user, grace, now)
  {
    assert c in Claims(s) && SafeClaim(c, m, grace);
    if IsPresent(s.cache, m.user, c.pass) {
      RearmKeepsGrace(s, s.cache.presence[m.user] * MILLIS, m.user, grace, now);
    } else {
      QuitIsStep(s, m, c.pass, now);
      Later(s, ExpireNow(s, m, c.pass, now).0, m.user, grace, s.clock, now);
    }
  }

  lemma {:induction false} OwnClaimKeepsGrace(s: State, m: Membership, c: T.Claim, grace: Second, now: Time)
    requires HasGrace(s, m.user, grace) && Cached(s, m) && c in s.open && c.user == m.user && c.pass <= s.clock < now
    requires m.expiresAt.None? && s.db.members[m.user] == m && Queues(HandleExpired(s, c, now).0.db, m.user)
    ensures Shielded(HandleExpired(s, c, now).0, m.user, grace, now)
  {
    HandleExpiredUnfolds(s, c, now);
    if IsStale(c, m) {
      StaleKeepsGrace(s, m, c, grace, now);
    } else {
      CurrentKeepsGrace(s, m, c, grace, now);
    }
  }

  lemma {:induction false} ExpiredKeepsGrace(s: State, c: T.Claim, u: UserId, grace: Second, now: Time)
    requires InvAt(s, now) && !s.down && now > s.clock && HasGrace(s, u, grace) && c in s.open
    requires var s' := HandleExpired(s, c, now).0; Queues(s'.db, u) && s'.db.members[u] == s.db.members[u]
    ensures Shielded(HandleExpired(s, c, now).0, u, grace, now)
  {
    if c.user == u {
      Lookup(s, u, now);
      OwnClaimKeepsGrace(s, s.cache.members[u], c, grace, now);
    } else {
      HandleFrame(s, c, now);
      HandleLeavesTimer(s, c, u, now);
      StaysShielded(s, HandleExpired(s, c, now).0, u, grace, s.clock);
      Later(HandleExpired(s, c, now).0, HandleExpired(s, c, now).0, u, grace, s.clock, now);
    }
  }

  lemma {:induction false} HandleFiles(s: State, c: T.Claim, now: Time)
    ensures var (s1, s') := (HandleExpired(s, c, now).0, HandleClaim(s, c, now));
      s' == s1
      || (s' == s1.(open := s1.open - {c}, handled := s'.handled, failed := s'.failed)
          && s'.handled <= s1.handled + {c} && s'.failed <= s1.failed + {c})
  {
  }

  lemma {:induction false} FilingKeepsGrace(s: State, s': State, c: T.Claim, u: UserId, grace: Second, clock: Time)
    requires Shielded(s, u, grace, clock) && c in s.open
    requires s' == s.(open := s.open - {c}, handled := s'.handled, failed := s'.failed)
    requires s'.handled <= s.handled + {c} && s'.failed <= s.failed + {c}
    ensures Shielded(s', u, grace, clock)
  {
    assert Claims(s') <= Claims(s);
  }

  lemma {:induction false} HandledKeepsGrace(s: State, c: T.Claim, u: UserId, grace: Second, now: Time)
    requires InvAt(s, now) && !s.down && now > s.clock && HasGrace(s, u, grace) && c in s.open
    requires var s' := HandleClaim(s, c, now); Queues(s'.db, u) && s'.db.members[u] == s.db.members[u]
    ensures Shielded(HandleClaim(s, c, now), u, grace, now)
  {
    var s1, s' := HandleExpired(s, c, now).0, HandleClaim(s, c, now);
    HandleFiles(s, c, now);
    HandleFrame(s, c, now);
    ExpiredKeepsGrace(s, c, u, grace, now);
    if s' != s1 {
      FilingKeepsGrace(s1, s', c, u, grace, now);
    }
  }

  // All that counts for whether a user is left alone.
  predicate Alike(s: State, s': State) {
    && s'.db == s.db && s'.cfg == s.cfg && s'.down == s.down && s'.cache.timers == s.cache.timers
    && s'.open == s.open && Claims(s') == Claims(s)
  }

  lemma {:induction false} AlikeShielded(s: State, s': State, u: UserId, grace: Second, now: Time)
    requires Shielded(s, u, grace, now) && Alike(s, s')
    ensures Shielded(s', u, grace, now)
  {
  }

  lemma {:induction false} HandleIsEffect(s: State, e: Event, now: Time)
    requires e.Handle?
    ensures Alike(HandleClaim(s, e.claim, now), Effect(s, e, now))
  {
  }

  lemma {:induction false} HandleKeepsGrace(s: State, e: Event, u: UserId, grace: Second, now: Time)
    requires InvAt(s, now) && !s.down && now > s.clock && HasGrace(s, u, grace) && e.Handle? && e.claim in s.open
    requires var s' := Effect(s, e, now); Queues(s'.db, u) && s'.db.members[u] == s.db.members[u]
    ensures Shielded(Effect(s, e, now), u, grace, now)
  {
    HandleIsEffect(s, e, now);
    HandledKeepsGrace(s, e.claim, u, grace, now);
    AlikeShielded(HandleClaim(s, e.claim, now), Effect(s, e, now), u, grace, now);
  }

  // ---- Every step ----

  lemma {:induction false} OperationKeepsGrace(s: State, e: Event, u: UserId, grace: Second, now: Time)
    requires Inv(s) && !s.down && HasGrace(s, u, grace) && Possible(s, Step(e, now, s.faults))
    requires e.Join? || e.Accept? || e.Leave? || e.Pay?
    requires var s' := Effect(s, e, now); Queues(s'.db, u) && s'.db.members[u] == s.db.members[u]
    ensures Shielded(Effect(s, e, now), u, grace, now)
  {
    LaterKeepsInv(s, now);
    match e {
      case Join(v, quantity, others, fetched) =>
        JoinLeavesTimer(s, v, quantity, others, fetched, u, now);
        JoinFrame(s, v, quantity, others, fetched, now);
      case Accept(v, accepted) =>
        AcceptLeavesTimer(s, v, accepted, u, now);
        AcceptFrame(s, v, accepted, now);
      case Leave(v, offerOnly) =>
        LeaveLeavesTimer(s, v, offerOnly, u, now);
        LeaveFrame(s, v, offerOnly, now);
      case Pay(token, order) =>
        PayLeavesTimer(s, token, order, u, now);
        PayFrame(s, token, order, now);
    }
    StaysShielded(s, Effect(s, e, now), u, grace, s.clock);
    Later(Effect(s, e, now), Effect(s, e, now), u, grace, s.clock, now);
  }

  predicate OnlyDue(t: T.Timers, u: UserId, d: Second) {
    u in t.scheduled && t.scheduled[u] == d && u !in t.processing && u !in t.deadlines
  }

  lemma {:induction false} RestartedTimer(s: State, rows: seq<Membership>, u: UserId, now: Time)
    requires Inv(s) && now > s.clock && IsSnapshot(s.db, s.product, rows) && Queues(s.db, u)
    ensures var s' := Restarted(s, rows, now);
      && s'.db == s.db && !s'.down && OnlyDue(s'.cache.timers, u, Seconds(now))
      && Claims(s') == {} && s'.cfg == s.cfg
  {
    RestartKeepsInv(s, rows, now);
    OwnTimer(s, u, now);
  }

  lemma {:induction false} RestartIsQuiet(t: T.Timers, u: UserId, since: Time, grace: Second, now: Time)
    requires SafeRestart(now, since, grace) && OnlyDue(t, u, Seconds(now))
    ensures Over(now, grace) || Quiet(At(t, u), since, grace, now)
  {
  }

  lemma {:induction false} OnlyDueIsShielded(s: State, s': State, u: UserId, grace: Second, now: Time)
    requires HasGrace(s, u, grace) && SafeRestart(now, s.db.members[u].updatedAt, grace) && now >= s.clock
    requires s'.db == s.db && s'.cfg == s.cfg && Claims(s') == {} && OnlyDue(s'.cache.timers, u, Seconds(now))
    ensures Shielded(s', u, grace, now)
  {
    RestartIsQuiet(s'.cache.timers, u, s.db.members[u].updatedAt, grace, now);
  }

  lemma {:induction false} RestartedIsShielded(s: State, rows: seq<Membership>, u: UserId, grace: Second, now: Time)
    requires Inv(s) && now > s.clock && IsSnapshot(s.db, s.product, rows)
    requires HasGrace(s, u, grace) && SafeRestart(now, s.db.members[u].updatedAt, grace)
    ensures Shielded(Restarted(s, rows, now), u, grace, now)
  {
    RestartedTimer(s, rows, u, now);
    OnlyDueIsShielded(s, Restarted(s, rows, now), u, grace, now);
  }

  lemma {:induction false} RestartIsEffect(s: State, e: Event, now: Time)
    requires e.Restart?
    ensures Alike(Restarted(s, e.rows, now), Effect(s, e, now))
  {
  }

  lemma {:induction false} RestartKeepsGrace(s: State, e: Event, u: UserId, grace: Second, now: Time)
    requires Inv(s) && now > s.clock && e.Restart? && IsSnapshot(s.db, s.product, e.rows)
    requires HasGrace(s, u, grace) && SafeRestart(now, s.db.members[u].updatedAt, grace)
    ensures Shielded(Effect(s, e, now), u, grace, now)
  {
    RestartIsEffect(s, e, now);
    RestartedIsShielded(s, e.rows, u, grace, now);
    AlikeShielded(Restarted(s, e.rows, now), Effect(s, e, now), u, grace, now);
  }

  lemma {:induction false} ArmedKeepsGrace(s: State, faults: Faults, u: UserId, grace: Second)
    requires HasGrace(s, u, grace)
    ensures HasGrace(Armed(s, faults), u, grace)
  {
    Later(s, Armed(s, faults), u, grace, s.clock, s.clock);
  }

  lemma {:induction false} OthersKeepGrace(s: State, e: Event, u: UserId, grace: Second, now: Time)
    requires Inv(s) && Possible(s, Step(e, now, s.faults)) && HasGrace(s, u, grace) && !s.down
    requires !e.Restart? && !e.ClaimDue? && !e.Handle?
    requires var s' := Effect(s, e, now); Queues(s'.db, u) && s'.db.members[u] == s.db.members[u]
    ensures Shielded(Effect(s, e, now), u, grace, now)
  {
    if e.Appear? {
      LaterKeepsInv(s, now);
      RefreshKeepsGrace(s, e, u, grace, now);
    } else if e.Join? || e.Accept? || e.Leave? || e.Pay? {
      OperationKeepsGrace(s, e, u, grace, now);
    } else {
      WorkerKeepsGrace(s, e, u, grace, now);
    }
  }

  lemma {:induction false} EffectKeepsGrace(s: State, e: Event, u: UserId, grace: Second, now: Time)
    requires Inv(s) && Possible(s, Step(e, now, s.faults)) && HasGrace(s, u, grace)
    requires var s' := Effect(s, e, now); Queues(s'.db, u) && s'.db.members[u] == s.db.members[u]
    requires e.Restart? ==> SafeRestart(now, s.db.members[u].updatedAt, grace)
    ensures Shielded(Effect(s, e, now), u, grace, now)
  {
    if e.Restart? {
      RestartKeepsGrace(s, e, u, grace, now);
    } else if e.ClaimDue? {
      ClaimKeepsGrace(s, e, u, grace, now);
    } else if e.Handle? {
      LaterKeepsInv(s, now);
      HandleKeepsGrace(s, e, u, grace, now);
    } else {
      OthersKeepGrace(s, e, u, grace, now);
    }
  }

  lemma {:induction false} NextKeepsGrace(s: State, x: Step, u: UserId, grace: Second)
    requires Inv(s) && Possible(s, x) && HasGrace(s, u, grace) && Queues(Next(s, x).db, u)
    requires x.event.Restart? ==> SafeRestart(x.at, s.db.members[u].updatedAt, grace)
    ensures HasGrace(Next(s, x), u, grace) && Next(s, x).db.members[u] == s.db.members[u]
  {
    var a := Armed(s, x.faults);
    ArmedInv(s, x.faults);
    ArmedKeepsGrace(s, x.faults, u, grace);
    NextProgresses(s, x);
    EffectKeepsGrace(a, x.event, u, grace, x.at);
    Later(Effect(a, x.event, x.at), Next(s, x), u, grace, x.at, x.at);
  }

  // ---- Runs ----

  // Dropped on claim c after having waited from the start of the run, with restarts at some
  // of the given instants only.
  ghost predicate DroppedAfterWait(s: State, run: seq<Step>, u: UserId, c: T.Claim, restarts: iset<Time>)
    decreases |run|
  {
    run != [] && Queues(s.db, u) && (run[0].event.Restart? ==> run[0].at in restarts)
    && (Drops(s, run[0], u, c) || DroppedAfterWait(Next(s, run[0]), run[1..], u, c, restarts))
  }

  lemma {:induction false} DropRespectsGrace(s: State, x: Step, u: UserId, c: T.Claim, grace: Second)
    requires Inv(s) && Possible(s, x) && HasGrace(s, u, grace) && Drops(s, x, u, c)
    ensures c.pass >= grace * MILLIS
  {
    DropIsDue(s, x, u, c);
    assert c in Claims(s) && SafeClaim(c, s.db.members[u], grace);
  }

  // However the workers interleave and whatever fails or dies, a waiting user is left alone
  // until its grace is over.
  lemma {:induction false} GraceIsRespected(s: State, run: seq<Step>, u: UserId, c: T.Claim, grace: Second, restarts: iset<Time>)
    requires Inv(s) && PossibleRun(s, run) && HasGrace(s, u, grace)
    requires DroppedAfterWait(s, run, u, c, restarts)
    requires forall r :: r in restarts && r > s.clock ==> SafeRestart(r, s.db.members[u].updatedAt, grace)
    ensures c.pass >= grace * MILLIS
    decreases |run|
  {
    var x, s1 := run[0], Next(s, run[0]);
    if Drops(s, x, u, c) {
      DropRespectsGrace(s, x, u, c, grace);
    } else {
      NextKeepsInv(s, x);
      NextKeepsGrace(s, x, u, grace);
      GraceIsRespected(s1, run[1..], u, c, grace, restarts);
    }
  }

  // ---- Right after the join ----

  // Queued this instant under a timer of a whole timeout, without a sign of life. What is left
  // of earlier memberships is older.
  ghost predicate JustQueued(s: State, u: UserId) {
    && Inv(s) && !s.down && Queues(s.db, u) && u !in s.cache.presence
    && s.db.members[u].user == u && s.db.members[u].updatedAt == s.clock
    && IsFresh(s.cache.timers, Claims(s), u, s.clock, s.cfg.presenceTimeout)
  }

  predicate IsFresh(t: T.Timers, claims: set<T.Claim>, u: UserId, now: Time, timeout: Time) {
    && u in t.scheduled && t.scheduled[u] == Seconds(now + timeout)
    && (u in t.deadlines ==> t.deadlines[u] * MILLIS < now)
    && forall c :: c in claims && c.user == u ==> c.deadline * MILLIS <= c.pass < now
  }

  lemma {:induction false} QueuedMeansWaiting(s: State, u: UserId, quantity: int, now: Time)
    requires Newcomer(s, u) && Entered(s, u, quantity, now)
    requires var (s2, e) := Admit(WithSlot(s, u), u, quantity, now); e.Finished? && Queues(s2.db, u)
    requires quantity > 0
    ensures TryAllocate(s.cache, quantity).1 == Allocation(0, 0, false)
  {
  }

  lemma {:induction false} QueuedEntryTimer(s: State, u: UserId, quantity: int, now: Time)
    requires quantity > 0 && TryAllocate(s.cache, quantity).1 == Allocation(0, 0, false)
    requires Admit(WithSlot(s, u), u, quantity, now).1.Finished?
    ensures var s2 := Admit(WithSlot(s, u), u, quantity, now).0;
      && s2.cache.timers == T.Add(s.cache.timers, u, Seconds(now + s.cfg.presenceTimeout))
      && u in s2.db.members && s2.db.members[u].updatedAt == now && s2.db.members[u].user == u
  {
    WaitUnfolds(s, u, quantity, now);
  }

  lemma {:induction false} FreshTimer(s: State, s': State, u: UserId, now: Time)
    requires Inv(s) && !s.down && now > s.clock && SameRun(s, s')
    requires s'.cache.timers == T.Add(s.cache.timers, u, Seconds(now + s.cfg.presenceTimeout))
    ensures IsFresh(s'.cache.timers, Claims(s'), u, now, s.cfg.presenceTimeout)
  {
    assert Claims(s') == Claims(s);
  }

  lemma {:induction false} AdmitFails(s: State, u: UserId, quantity: int, now: Time)
    ensures var (s2, e) := Admit(WithSlot(s, u), u, quantity, now); e.StoreFailed? ==> s2.db == s.db
  {
  }

  // A join that queued its user went all the way.
  lemma {:induction false} QueuedJoinIsAdmitted(s: State, u: UserId, quantity: int, others: nat, fetched: Option<nat>, now: Time)
    requires Inv(s) && !s.down && !Queues(s.db, u)
    requires s.db.stock.None? && fetched.Some? ==> fetched.value == s.cfg.initialStock
    requires var s' := JoinQueue(s, u, quantity, others, fetched, now).0; !s'.down && Queues(s'.db, u)
    ensures fetched.Some? && quantity > 0 && Idempotent(s.cache, u).None?
    ensures var s1 := Touch(s, fetched.value).0;
      var (s2, e) := Admit(WithSlot(s1, u), u, quantity, now);
      Touch(s, fetched.value).1.Finished? && !e.StoreFailed? && s2 == JoinQueue(s, u, quantity, others, fetched, now).0
      && !Queues(s1.db, u)
  {
    if Idempotent(s.cache, u).None? {
      NobodyHasSlot(s, u);
    }
    JoinUnfolds(s, u, quantity, others, fetched, now);
    if fetched.Some? {
      TouchIsStock(s, fetched.value);
      if Touch(s, fetched.value).1.Finished? {
        AdmitFails(Touch(s, fetched.value).0, u, quantity, now);
      }
    }
  }

  lemma {:induction false} AdmissionIsFresh(s: State, u: UserId, quantity: int, now: Time)
    requires Inv(s) && !s.down && s.db.stock.Some? && now > s.clock && quantity > 0 && Idempotent(s.cache, u).None?
    requires var (s2, e) := Admit(WithSlot(s, u), u, quantity, now);
      !s2.down && !e.StoreFailed? && Queues(s2.db, u)
    ensures var s2 := Admit(WithSlot(s, u), u, quantity, now).0;
      && s2.db.members[u].updatedAt == now && s2.db.members[u].user == u
      && IsFresh(s2.cache.timers, Claims(s2), u, now, s.cfg.presenceTimeout) && SameRun(s, s2)
  {
    LaterKeepsInv(s, now);
    IsNewcomer(s, u, now);
    AdmitIsStep(s, u, quantity, now);
    AdmitFrame(WithSlot(s, u), u, quantity, now);
    QueuedMeansWaiting(s, u, quantity, now);
    QueuedEntryTimer(s, u, quantity, now);
    FreshTimer(s, Admit(WithSlot(s, u), u, quantity, now).0, u, now);
  }

  lemma {:induction false} QueuedJoinIsFresh(s: State, u: UserId, quantity: int, others: nat, fetched: Option<nat>, now: Time)
    requires Inv(s) && !s.down && now > s.clock && !Queues(s.db, u)
    requires s.db.stock.None? && fetched.Some? ==> fetched.value == s.cfg.initialStock
    requires var s' := JoinQueue(s, u, quantity, others, fetched, now).0; !s'.down && Queues(s'.db, u)
    ensures var s' := JoinQueue(s, u, quantity, others, fetched, now).0;
      && s'.db.members[u].updatedAt == now && s'.db.members[u].user == u
      && IsFresh(s'.cache.timers, Claims(s'), u, now, s.cfg.presenceTimeout) && SameRun(s, s')
  {
    QueuedJoinIsAdmitted(s, u, quantity, others, fetched, now);
    TouchKeepsInv(s, fetched.value);
    TouchThenSlot(s, u, fetched.value);
    TouchFrame(s, fetched.value);
    AdmissionIsFresh(Touch(s, fetched.value).0, u, quantity, now);
  }

  // Every join that queues its user ends so.
  lemma {:induction false} JoinIsFresh(s: State, x: Step, u: UserId)
    requires Inv(s) && Possible(s, x) && x.event.Join? && x.event.user == u && !Queues(s.db, u) && u !in s.cache.presence
    requires !Next(s, x).down && Queues(Next(s, x).db, u)
    ensures JustQueued(Next(s, x), u)
  {
    var a := Armed(s, x.faults);
    ArmedInv(s, x.faults);
    NextKeepsInv(s, x);
    QueuedJoinIsFresh(a, u, x.event.quantity, x.event.others, x.event.fetched, x.at);
    var s' := Effect(a, x.event, x.at);
    assert Claims(Next(s, x)) == Claims(s');
  }

  // ---- What can cost a waiting user its grace ----

  // The claim is left over from an earlier membership, and the timer that its worker sets when
  // it finds it stale runs out too soon. If that timer would count as older than the wait, it
  // takes a worker that claims and returns it, and a second more.
  predicate ClaimHurts(c: T.Claim, since: Time, timeout: Time, grace: Second) {
    var d := Seconds(c.pass + timeout);
    d < grace && (since <= d * MILLIS || since + 2 + T.RETRY_DELAY < grace * MILLIS)
  }

  // The restart is not in the second of the join, or it leaves time for such a worker.
  predicate RestartHurts(at: Time, since: Time, grace: Second) {
    || (since <= Seconds(at) * MILLIS && at + 1 < grace * MILLIS)
    || at + 1 + T.RETRY_DELAY < grace * MILLIS
  }

  predicate LeftoverHurts(s: State, u: UserId, grace: Second) {
    exists c :: c in s.open && c.user == u && ClaimHurts(c, s.clock, s.cfg.presenceTimeout, grace)
  }

  // Whoever is queued has a whole timeout exactly if no such claim is left.
  lemma {:induction false} JoinGivesGrace(s: State, u: UserId, grace: Second)
    requires JustQueued(s, u) && grace <= Seconds(s.clock + s.cfg.presenceTimeout)
    ensures HasGrace(s, u, grace) <==> !LeftoverHurts(s, u, grace)
  {
    if LeftoverHurts(s, u, grace) {
      var c :| c in s.open && c.user == u && ClaimHurts(c, s.clock, s.cfg.presenceTimeout, grace);
      assert c in Claims(s) && IsStale(c, s.db.members[u]);
      assert !SafeRestore(c, s.db.members[u], s.cfg.presenceTimeout, grace, s.clock) && !Over(s.clock, grace);
    }
  }
}
