/** The expiration worker: leases, stale claims and what handling a timer may end. */
module Expiry {
  import opened Models
  import opened CacheScripts
  import opened DurableTx
  import opened Service
  import opened Invariants
  import opened Advance
  import opened Operations
  import opened Joining
  import T = Timers

  // ---- The scripts ----

  // A new lease outlives every older one, so a re-claimed timer orphans the old claim.
  lemma {:induction false} TakeKeeps(t: T.Timers, u: UserId, now: Time, ms: map<UserId, Membership>, handled: set<T.Claim>, claims: set<T.Claim>)
    requires TimerFacts(t, ms, handled, claims, now) && handled <= claims
    requires T.IsDue(t, u, now) && forall c :: c in claims && c.user == u ==> c.pass < now
    ensures TimerFacts(T.Take(t, u, now + T.LEASE), ms, handled,
              claims + {T.Claim(u, t.scheduled[u], now + T.LEASE, now)}, now)
  {
    var t' := T.Take(t, u, now + T.LEASE);
    forall v | v in ms && ms[v].IsTimed()
      ensures DeadlineOk(t', ms[v])
    {
      assert DeadlineOk(t, ms[v]);
    }
  }

  lemma {:induction false} ClaimDueKeeps(t: T.Timers, now: Time, limit: nat, ms: map<UserId, Membership>, handled: set<T.Claim>, claims: set<T.Claim>)
    requires TimerFacts(t, ms, handled, claims, now) && handled <= claims
    requires forall c :: c in claims && c.user in t.scheduled ==> c.pass < now
    ensures var (t', batch) := T.ClaimDue(t, now, limit);
      TimerFacts(t', ms, handled, claims + T.AsSet(batch), now)
    decreases limit
  {
    if limit > 0 && T.NextDue(t, now).Some? {
      var u := T.NextDue(t, now).value;
      var c := T.Claim(u, t.scheduled[u], now + T.LEASE, now);
      var t1 := T.Take(t, u, now + T.LEASE);
      TakeKeeps(t, u, now, ms, handled, claims);
      ClaimDueKeeps(t1, now, limit - 1, ms, handled, claims + {c});
      var rest := T.ClaimDue(t1, now, limit - 1).1;
      assert claims + {c} + T.AsSet(rest) == claims + T.AsSet([c] + rest);
    } else {
      assert claims + T.AsSet([]) == claims;
    }
  }

  lemma {:induction false} AckOneKeeps(t: T.Timers, c: T.Claim, ms: map<UserId, Membership>, handled: set<T.Claim>, claims: set<T.Claim>, clock: Time)
    requires TimerFacts(t, ms, handled, claims, clock) && c in handled
    ensures TimerFacts(T.AckOne(t, c), ms, handled, claims, clock)
  {
    forall v | v in ms && ms[v].IsTimed()
      ensures DeadlineOk(T.AckOne(t, c), ms[v])
    {
      assert DeadlineOk(t, ms[v]);
    }
  }

  lemma {:induction false} AckKeeps(t: T.Timers, cs: seq<T.Claim>, ms: map<UserId, Membership>, handled: set<T.Claim>, claims: set<T.Claim>, clock: Time)
    requires TimerFacts(t, ms, handled, claims, clock) && forall c :: c in cs ==> c in handled
    ensures TimerFacts(T.Ack(t, cs), ms, handled, claims, clock)
    decreases |cs|
  {
    if cs != [] {
      AckOneKeeps(t, cs[0], ms, handled, claims, clock);
      AckKeeps(T.AckOne(t, cs[0]), cs[1..], ms, handled, claims, clock);
    }
  }

  // The retry of a failed timer is not earlier than the deadline it was claimed with.
  lemma {:induction false} NackOneKeeps(t: T.Timers, c: T.Claim, ms: map<UserId, Membership>, handled: set<T.Claim>, claims: set<T.Claim>, clock: Time)
    requires TimerFacts(t, ms, handled, claims, clock) && c in claims
    ensures TimerFacts(T.NackOne(t, c), ms, handled, claims, clock)
  {
    if T.HoldsLease(t, c) {
      assert Seconds(c.pass + T.RETRY_DELAY) >= c.deadline;
      forall v | v in ms && ms[v].IsTimed()
        ensures DeadlineOk(T.NackOne(t, c), ms[v])
      {
        assert DeadlineOk(t, ms[v]);
      }
    }
  }

  lemma {:induction false} NackKeeps(t: T.Timers, cs: seq<T.Claim>, ms: map<UserId, Membership>, handled: set<T.Claim>, claims: set<T.Claim>, clock: Time)
    requires TimerFacts(t, ms, handled, claims, clock) && forall c :: c in cs ==> c in claims
    ensures TimerFacts(T.Nack(t, cs), ms, handled, claims, clock)
    decreases |cs|
  {
    if cs != [] {
      NackOneKeeps(t, cs[0], ms, handled, claims, clock);
      NackKeeps(T.NackOne(t, cs[0]), cs[1..], ms, handled, claims, clock);
    }
  }

  lemma {:induction false} ReclaimKeeps(t: T.Timers, now: Time, ms: map<UserId, Membership>, handled: set<T.Claim>, claims: set<T.Claim>, clock: Time)
    requires TimerFacts(t, ms, handled, claims, clock)
    ensures TimerFacts(T.Reclaim(t, now), ms, handled, claims, clock)
  {
    var t' := T.Reclaim(t, now);
    forall v | v in ms && ms[v].IsTimed()
      ensures DeadlineOk(t', ms[v])
    {
      assert DeadlineOk(t, ms[v]);
    }
  }

  // ---- Steps that only touch timers ----

  lemma {:induction false} TimersOnly(s: State, s': State, now: Time)
    requires InvAt(s, now) && !s.down
    requires s' == s.(cache := s.cache.(timers := s'.cache.timers, presence := s'.cache.presence), clock := s'.clock,
                      open := s'.open, handled := s'.handled, failed := s'.failed)
    requires s'.clock <= now && TimerInv(s')
    ensures InvAt(s', now)
  {
  }

  lemma {:induction false} ClaimTimersKeepsInv(s: State, limit: nat, now: Time)
    requires Inv(s) && !s.down && now > s.clock
    ensures InvAt(ClaimTimers(s, limit, now).(clock := now), now)
  {
    ClaimDueKeeps(s.cache.timers, now, limit, s.db.members, s.handled, Claims(s));
    var s' := ClaimTimers(s, limit, now).(clock := now);
    var batch := T.ClaimDue(s.cache.timers, now, limit).1;
    assert Claims(s') == Claims(s) + T.AsSet(batch);
    LaterKeepsInv(s, now);
    TimersOnly(s, s', now);
  }

  lemma {:induction false} AckKeepsInv(s: State, cs: seq<T.Claim>)
    requires Inv(s) && !s.down && forall c :: c in cs ==> c in s.handled
    ensures Inv(WithTimers(s, T.Ack(s.cache.timers, cs)))
  {
    AckKeeps(s.cache.timers, cs, s.db.members, s.handled, Claims(s), s.clock);
    TimersOnly(s, WithTimers(s, T.Ack(s.cache.timers, cs)), s.clock);
  }

  lemma {:induction false} NackKeepsInv(s: State, cs: seq<T.Claim>)
    requires Inv(s) && !s.down && forall c :: c in cs ==> c in s.failed
    ensures Inv(WithTimers(s, T.Nack(s.cache.timers, cs)))
  {
    NackKeeps(s.cache.timers, cs, s.db.members, s.handled, Claims(s), s.clock);
    TimersOnly(s, WithTimers(s, T.Nack(s.cache.timers, cs)), s.clock);
  }

  lemma {:induction false} ReclaimKeepsInv(s: State, now: Time)
    requires Inv(s) && !s.down
    ensures Inv(WithTimers(s, T.Reclaim(s.cache.timers, now)))
  {
    ReclaimKeeps(s.cache.timers, now, s.db.members, s.handled, Claims(s), s.clock);
    TimersOnly(s, WithTimers(s, T.Reclaim(s.cache.timers, now)), s.clock);
  }

  // The branch that repairs a stale index entry never runs.
  lemma {:induction false} PresenceIsTimersOnly(s: State, u: UserId, now: Time)
    requires InvAt(s, now) && !s.down
    ensures RefreshPresence(s, u, now).cache
         == s.cache.(presence := s.cache.presence[u := Seconds(now + s.cfg.presenceTimeout)],
                     timers := RefreshPresence(s, u, now).cache.timers)
    ensures var t' := RefreshPresence(s, u, now).cache.timers;
      t' == s.cache.timers
      || (u in s.cache.timers.scheduled && u in s.db.members && s.db.members[u].status.Queued?
          && exists d :: t' == T.Add(s.cache.timers, u, d))
  {
    if u in s.cache.index {
      assert u in QueuedUsers(s.cache.members);
    }
  }

  lemma {:induction false} AddTimerKeeps(t: T.Timers, u: UserId, d: Second, ms: map<UserId, Membership>, handled: set<T.Claim>, claims: set<T.Claim>, clock: Time)
    requires TimerFacts(t, ms, handled, claims, clock)
    requires u in ms && ms[u].IsTimed() ==> ms[u].expiresAt.Some? && d >= Seconds(ms[u].expiresAt.value)
    ensures TimerFacts(T.Add(t, u, d), ms, handled, claims, clock)
  {
    forall v | v in ms && ms[v].IsTimed()
      ensures DeadlineOk(T.Add(t, u, d), ms[v])
    {
      assert DeadlineOk(t, ms[v]);
    }
  }

  lemma {:induction false} PresenceKeepsInv(s: State, u: UserId, now: Time)
    requires InvAt(s, now) && !s.down
    ensures InvAt(RefreshPresence(s, u, now), now)
  {
    var s' := RefreshPresence(s, u, now);
    PresenceIsTimersOnly(s, u, now);
    if s'.cache.timers != s.cache.timers {
      var d :| s'.cache.timers == T.Add(s.cache.timers, u, d);
      AddTimerKeeps(s.cache.timers, u, d, s.db.members, s.handled, Claims(s), s.clock);
    }
    TimersOnly(s, s', now);
  }

  // ---- handleExpiredKey ----

  // Advancing the queue leaves everybody alone who is not waiting in it.
  lemma {:induction false} TurnLeavesOthers(s: State, s1: State, e: Ended, m: Membership, v: UserId, now: Time)
    requires Head(s, m) && v in s.db.members && !s.db.members[v].status.Queued?
    requires Stepped(s, s1, e, Verdict(s, m, now), Verdict(s, m, now), VerdictRight(s, m, now))
    ensures v in s1.db.members && s1.db.members[v] == s.db.members[v]
  {
  }

  lemma {:induction false} AdvanceLeavesOthers(s: State, v: UserId, now: Time)
    requires InvAt(s, now) && !s.down && now > s.clock
    requires v in s.db.members && !s.db.members[v].status.Queued?
    ensures var s' := AdvanceQueue(s, now).0;
      v in s'.db.members && s'.db.members[v] == s.db.members[v]
    decreases |s.cache.queue|
  {
    var s1, e, m := OneTurn(s, now);
    if m.Some? {
      TurnLeavesOthers(s, s1, e, m.value, v, now);
      if e.Finished? {
        AdvanceLeavesOthers(s1, v, now);
      }
    }
  }

  // After a handled timer the user is either out or has a timer in the schedule.
  predicate Accounted(s: State, u: UserId) {
    u in s.db.members && s.db.members[u].IsLive() ==> u in s.cache.timers.scheduled
  }

  predicate Handled(s: State, u: UserId, r: (State, Reply)) {
    && SameRun(s, r.0)
    && (r.1.Crashed? <==> r.0.down)
    && (r.1 == Ok ==> Accounted(r.0, u))
    && (r.1 == Ok || r.1.Refused? || r.1.Crashed?)
  }

  lemma {:induction false} OutStaysOut(s: State, s': State, u: UserId, now: Time)
    requires InvAt(s, now) && now > s.clock && AdvancedOrNot(s, s', now)
    requires u in s.db.members && s.db.members[u].status.IsTerminal()
    ensures Accounted(s', u) && SameRun(s, s')
  {
    if s' != s {
      AdvanceLeavesOthers(s, u, now);
    }
  }

  lemma {:induction false} ExpiryReplies(s: State, m: Membership, stamp: Time, now: Time)
    requires !s.down && m.token.Some?
    requires var tx := ExpireRight(s.db, m.token.value, m.Settled(Declined, stamp), now);
      tx.TxResult? && tx.transitioned
    ensures var tx := ExpireRight(s.db, m.token.value, m.Settled(Declined, stamp), now);
      var (s1, e) := ExpireHeld(s, m, tx.db, tx.right, stamp, false, now);
      var r := ExpireActiveRight(s, m, stamp, false, now);
      && (e.Died? ==> r == (s1, Crashed) && s1.down)
      && (e.StoreFailed? ==> r == (s1, Refused(StoreUnavailable)) && !s1.down)
      && (e.Finished? ==> !s1.down && r == (AdvanceQueue(s1, now).0, Replied(AdvanceQueue(s1, now).1, Ok)))
      && SameRun(s, s1)
  {
  }

  lemma {:induction false} ExpiredHolderIsOut(s: State, u: UserId, stamp: Time, removeTimer: bool, now: Time) returns (s1: State, e: Ended)
    requires InvAt(s, now) && !s.down && now > s.clock
    requires u in s.cache.members && s.cache.members[u].status.RightActive?
    ensures var m := s.cache.members[u];
      m.token.Some?
      && var tx := ExpireRight(s.db, m.token.value, m.Settled(Declined, stamp), now);
         tx.TxResult? && tx.transitioned
         && (s1, e) == ExpireHeld(s, m, tx.db, tx.right, stamp, removeTimer, now)
    ensures InvAt(s1, now)
    ensures e.Finished? ==> u in s1.db.members && s1.db.members[u].status.Declined?
  {
    var m := s.cache.members[u];
    Lookup(s, u, now);
    ExpireHeldKeepsInv(s, u, stamp, removeTimer, now);
    ExpireIsStep(s, m, stamp, removeTimer, now);
    var tx := ExpireRight(s.db, m.token.value, m.Settled(Declined, stamp), now);
    s1, e := ExpireHeld(s, m, tx.db, tx.right, stamp, removeTimer, now).0, ExpireHeld(s, m, tx.db, tx.right, stamp, removeTimer, now).1;
  }

  // A transition that ended the membership, then an advance.
  lemma {:induction false} EndsHandled(s: State, s1: State, e: Ended, r: (State, Reply), u: UserId, now: Time)
    requires SameRun(s, s1) && now > s1.clock
    requires e.Died? ==> r == (s1, Crashed) && s1.down
    requires e.StoreFailed? ==> r == (s1, Refused(StoreUnavailable)) && !s1.down
    requires e.Finished? ==>
      (!s1.down && r == (AdvanceQueue(s1, now).0, Replied(AdvanceQueue(s1, now).1, Ok))
       && InvAt(s1, now) && u in s1.db.members && s1.db.members[u].status.IsTerminal())
    ensures Handled(s, u, r) && r.1 != Refused(InvalidStatus)
  {
    if e.Finished? {
      OutStaysOut(s1, AdvanceQueue(s1, now).0, u, now);
    }
  }

  lemma {:induction false} HandlesRight(s: State, u: UserId, now: Time)
    requires InvAt(s, now) && !s.down && now > s.clock
    requires u in s.cache.members && s.cache.members[u].status.RightActive?
    ensures Handled(s, u, ExpireActiveRight(s, s.cache.members[u], now, false, now))
    ensures ExpireActiveRight(s, s.cache.members[u], now, false, now).1 != Refused(InvalidStatus)
  {
    var s1, e := ExpiredHolderIsOut(s, u, now, false, now);
    ExpiryReplies(s, s.cache.members[u], now, now);
    EndsHandled(s, s1, e, ExpireActiveRight(s, s.cache.members[u], now, false, now), u, now);
  }

  lemma {:induction false} OfferReplies(s: State, m: Membership, stamp: Time, now: Time)
    requires !s.down && m.available.Some?
    ensures var (s1, e) := CloseOffer(s, m, stamp, false, now);
      var r := EndOffer(s, m, stamp, false, false, now);
      && (e.Died? ==> r == (s1, Crashed) && s1.down)
      && (e.StoreFailed? ==> r == (s1, Refused(StoreUnavailable)) && !s1.down)
      && (e.Finished? ==> !s1.down && r == (AdvanceQueue(s1, now).0, Replied(AdvanceQueue(s1, now).1, Ok)))
      && SameRun(s, s1)
  {
  }

  lemma {:induction false} ClosedOfferIsOut(s: State, u: UserId, stamp: Time, now: Time)
    requires InvAt(s, now) && !s.down
    requires u in s.cache.members && s.cache.members[u].status.OfferPending? && s.cache.members[u].available.Some?
    ensures var (s1, e) := CloseOffer(s, s.cache.members[u], stamp, false, now);
      e.Finished? ==> u in s1.db.members && s1.db.members[u].status.IsTerminal()
  {
    Lookup(s, u, now);
    CloseOfferIsStep(s, s.cache.members[u], stamp, false, now);
  }

  lemma {:induction false} HandlesOffer(s: State, u: UserId, stamp: Time, now: Time)
    requires InvAt(s, now) && !s.down && now > s.clock
    requires u in s.cache.members && s.cache.members[u].status.OfferPending? && s.cache.members[u].available.Some?
    ensures Handled(s, u, EndOffer(s, s.cache.members[u], stamp, false, false, now))
  {
    var m := s.cache.members[u];
    CloseOfferKeepsInv(s, u, stamp, false, now);
    ClosedOfferIsOut(s, u, stamp, now);
    OfferReplies(s, m, stamp, now);
    var (s1, e) := CloseOffer(s, m, stamp, false, now);
    EndsHandled(s, s1, e, EndOffer(s, m, stamp, false, false, now), u, now);
  }

  lemma {:induction false} QuitReplies(s: State, final: Membership, now: Time)
    requires !s.down
    ensures var (s1, e) := QuitQueue(s, final, now);
      SameRun(s, s1) && (s1.down <==> e.Died?)
      && (e.Finished? ==> final.user in s1.db.members && s1.db.members[final.user].status == final.status)
  {
  }

  lemma {:induction false} HandlesWaiting(s: State, u: UserId, stamp: Time, now: Time)
    requires InvAt(s, now) && !s.down && now > s.clock
    requires u in s.cache.members && s.cache.members[u].status.Queued?
    ensures var (s1, e) := QuitQueue(s, s.cache.members[u].Settled(Declined, stamp), now);
      Handled(s, u, (s1, Replied(e, Ok)))
  {
    Lookup(s, u, now);
    QuitReplies(s, s.cache.members[u].Settled(Declined, stamp), now);
  }

  lemma {:induction false} RescheduleKeepsInv(s: State, u: UserId, deadline: Time, now: Time)
    requires InvAt(s, now) && !s.down && u in s.cache.members
    requires s.cache.members[u].IsTimed() ==> s.cache.members[u].expiresAt == Some(deadline)
    ensures InvAt(s.(cache := AddTimer(s.cache, u, deadline)), now)
  {
    AddTimerKeeps(s.cache.timers, u, Seconds(deadline), s.db.members, s.handled, Claims(s), s.clock);
    TimersOnly(s, s.(cache := AddTimer(s.cache, u, deadline)), now);
  }

  lemma {:induction false} ExpireNowHandles(s: State, u: UserId, pass: Time, now: Time)
    requires InvAt(s, now) && !s.down && now > s.clock
    requires u in s.cache.members && s.cache.members[u].IsLive()
    ensures Handled(s, u, ExpireNow(s, s.cache.members[u], pass, now))
    ensures InvAt(ExpireNow(s, s.cache.members[u], pass, now).0, now)
  {
    var m := s.cache.members[u];
    Lookup(s, u, now);
    if m.status.RightActive? {
      HandlesRight(s, u, now);
      ExpireKeepsInv(s, u, now, false, now);
    } else if m.status.OfferPending? {
      HandlesOffer(s, u, pass, now);
      EndOfferKeepsInv(s, u, pass, false, false, now);
    } else if IsPresent(s.cache, u, pass) {
      RescheduleKeepsInv(s, u, s.cache.presence[u] * MILLIS, now);
    } else {
      HandlesWaiting(s, u, pass, now);
      QuitKeepsInv(s, u, pass, now);
    }
  }

  lemma {:induction false} RestoreAccounts(s: State, m: Membership, pass: Time)
    requires !s.down
    ensures Handled(s, m.user, (RestoreTimer(s, m, pass), Ok))
  {
  }

  lemma {:induction false} RestoreKeepsInv(s: State, u: UserId, pass: Time, now: Time)
    requires InvAt(s, now) && !s.down && u in s.cache.members && s.cache.members[u].user == u
    requires s.cache.members[u].IsTimed() ==> s.cache.members[u].expiresAt.Some?
    ensures InvAt(RestoreTimer(s, s.cache.members[u], pass), now)
  {
    RescheduleKeepsInv(s, u, RestoredDeadline(s, s.cache.members[u], pass), now);
  }

  lemma {:induction false} RestoreHandles(s: State, u: UserId, pass: Time, now: Time)
    requires InvAt(s, now) && !s.down && u in s.cache.members && s.cache.members[u].IsLive()
    ensures InvAt(RestoreTimer(s, s.cache.members[u], pass), now)
    ensures Handled(s, u, (RestoreTimer(s, s.cache.members[u], pass), Ok))
  {
    Lookup(s, u, now);
    RestoreKeepsInv(s, u, pass, now);
    RestoreAccounts(s, s.cache.members[u], pass);
  }

  lemma {:induction false} HandleExpiredUnfolds(s: State, c: T.Claim, now: Time)
    requires c.user in s.cache.members
    requires var m := s.cache.members[c.user];
      m.IsLive() ==> !m.status.UnknownMembershipStatus? && (m.IsTimed() ==> m.expiresAt.Some?)
    ensures var m := s.cache.members[c.user];
      HandleExpired(s, c, now)
      == if !m.IsLive() then (s, Ok)
         else if IsStale(c, m) then (RestoreTimer(s, m, c.pass), Ok)
         else ExpireNow(s, m, c.pass, now)
  {
  }

  lemma {:induction false} HandleExpiredHandles(s: State, c: T.Claim, now: Time)
    requires InvAt(s, now) && !s.down && now > s.clock
    ensures Handled(s, c.user, HandleExpired(s, c, now))
    ensures InvAt(HandleExpired(s, c, now).0, now)
  {
    if c.user in s.cache.members {
      if s.cache.members[c.user].IsLive() {
        Lookup(s, c.user, now);
        HandleExpiredUnfolds(s, c, now);
        if IsStale(c, s.cache.members[c.user]) {
          RestoreHandles(s, c.user, c.pass, now);
        } else {
          ExpireNowHandles(s, c.user, c.pass, now);
        }
      } else {
        HandleExpiredUnfolds(s, c, now);
      }
    }
  }

  lemma {:induction false} FilingKeepsInv(s: State, s': State, c: T.Claim, now: Time)
    requires InvAt(s, now) && !s.down && c in s.open
    requires s' == s.(open := s.open - {c}, handled := s'.handled, failed := s'.failed)
    requires (s'.handled == s.handled && s'.failed == s.failed + {c})
      || (s'.handled == s.handled + {c} && s'.failed == s.failed && Accounted(s, c.user))
    ensures InvAt(s', now)
  {
    assert Claims(s') == Claims(s);
    TimersOnly(s, s', now);
  }

  lemma {:induction false} HandleKeepsInv(s: State, c: T.Claim, now: Time)
    requires InvAt(s, now) && !s.down && now > s.clock && c in s.open
    ensures InvAt(HandleClaim(s, c, now), now)
  {
    HandleExpiredHandles(s, c, now);
    var r := HandleExpired(s, c, now);
    if !r.1.Crashed? {
      FilingKeepsInv(r.0, HandleClaim(s, c, now), c, now);
    }
  }
}
