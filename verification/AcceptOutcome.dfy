/** What accepting an offer comes to: which reply, and what becomes of its units. */
module AcceptOutcome {
  import opened Models
  import opened CacheScripts
  import opened DurableTx
  import opened Service
  import opened Invariants
  import opened Operations
  import opened Greedy
  import opened Replies
  import opened LeaveOutcome
  import T = Timers

  // ---- Accepting ----

  // The acceptance goes through, and the advance of the queue that may follow.
  lemma {:induction false} AcceptSucceeds(s: State, u: UserId, accepted: int, now: Time)
    requires InvAt(s, now) && !s.down && now > s.clock && s.faults.Healthy?
    requires u in s.cache.members && s.cache.members[u].status.OfferPending? && s.cache.members[u].available.Some?
    requires 0 < accepted <= s.cache.members[u].available.value && !IsLate(s.cache.members[u], now)
    ensures AcceptOffer(s, u, accepted, now).1.Granted?
  {
    var s1 := TakeOffer(s, s.cache.members[u], accepted, now).0;
    TakeOfferKeepsInv(s, u, accepted, now);
    TakeIsHealthy(s, s.cache.members[u], accepted, now);
    HealthyAdvanceFinishes(s1, now);
  }

  lemma {:induction false} TakeIsHealthy(s: State, m: Membership, accepted: int, now: Time)
    requires s.faults.Healthy? && !s.down && m.available.Some?
    ensures var (s1, e) := TakeOffer(s, m, accepted, now); e.Finished? && s1.faults.Healthy? && !s1.down && s1.clock == s.clock
  {
  }

  lemma {:induction false} AcceptRefusals(s: State, u: UserId, accepted: int, now: Time)
    requires u in s.cache.members ==> (s.cache.members[u].status.OfferPending? ==> s.cache.members[u].available.Some?)
    ensures var reply := AcceptOffer(s, u, accepted, now).1;
      && (reply == Refused(InvalidQuantity) <==> accepted <= 0)
      && (reply == Refused(TokenNotFound) <==> accepted > 0 && u !in s.cache.members)
      && (accepted > 0 && u in s.cache.members ==>
            var m := s.cache.members[u];
            && (reply == Refused(TokenExpired) <==> IsLate(m, now))
            && (reply == Refused(InvalidStatus) <==> !IsLate(m, now) && !m.status.OfferPending?)
            && (reply == Refused(QuantityExceeded)
                <==> !IsLate(m, now) && m.status.OfferPending? && accepted > m.available.value))
      && (reply.Refused? && reply.error != StoreUnavailable ==>
            reply.error in {InvalidQuantity, TokenNotFound, TokenExpired, InvalidStatus, QuantityExceeded})
  {
  }

  // Which reply an acceptance gets. Without a failing write there is no other.
  lemma {:induction false} AcceptRepliesIff(s: State, u: UserId, accepted: int, now: Time)
    requires InvAt(s, now) && !s.down && now > s.clock
    ensures var reply := AcceptOffer(s, u, accepted, now).1;
      && (reply == Refused(InvalidQuantity) <==> accepted <= 0)
      && (reply == Refused(TokenNotFound) <==> accepted > 0 && u !in s.db.members)
      && (accepted > 0 && u in s.db.members ==>
            var m := s.db.members[u];
            && (m.status.OfferPending? ==> m.available.Some?)
            && (reply == Refused(TokenExpired) <==> IsLate(m, now))
            && (reply == Refused(InvalidStatus) <==> !IsLate(m, now) && !m.status.OfferPending?)
            && (reply == Refused(QuantityExceeded)
                <==> !IsLate(m, now) && m.status.OfferPending? && accepted > m.available.value)
            && (s.faults.Healthy? ==>
                  (reply.Granted? <==> !IsLate(m, now) && m.status.OfferPending? && accepted <= m.available.value)))
  {
    RowSeen(s, u, now);
    AcceptRefusals(s, u, accepted, now);
    if s.faults.Healthy? && accepted > 0 && u in s.cache.members {
      var m := s.cache.members[u];
      if !IsLate(m, now) && m.status.OfferPending? && accepted <= m.available.value {
        AcceptSucceeds(s, u, accepted, now);
      }
    }
  }

  // The membership after the acceptance.
  function Acceptor(s: State, m: Membership, accepted: int, now: Time): Membership {
    Membership(m.product, m.user, RightActive, accepted, None, Some(s.nextToken), Some(now + s.cfg.paymentTtl), m.createdAt, now)
  }

  function AcceptorsRight(s: State, u: UserId, accepted: int, now: Time): Right {
    Right(s.nextToken, u, s.product, accepted, Active, None, now, now + s.cfg.paymentTtl, None)
  }

  // Both stores when the right has been issued and the rest of the offer returned.
  predicate Taken(s: State, s1: State, m: Membership, accepted: int, now: Time)
    requires m.available.Some?
  {
    && s1.db.members == s.db.members[m.user := Acceptor(s, m, accepted, now)]
    && s1.cache.members == s.cache.members[m.user := Acceptor(s, m, accepted, now)]
    && s1.db.rights == s.db.rights[s.nextToken := AcceptorsRight(s, m.user, accepted, now)] && s1.cache.rights == s1.db.rights
    && s1.db.stock == s.db.stock && s1.db.outbox == s.db.outbox
    && s1.cache.stock == Some(Stock(Counters(s.cache).count, Counters(s.cache).available + (m.available.value - accepted)))
    && s1.cache.queue == s.cache.queue && s1.cache.slots == s.cache.slots + {m.user}
    && s1.cache.timers == T.Add(s.cache.timers, m.user, Seconds(now + s.cfg.paymentTtl))
  }

  lemma {:induction false} TakeIsExact(s: State, m: Membership, accepted: int, now: Time)
    requires Cached(s, m) && m.status.OfferPending? && 0 < accepted <= m.available.value
    requires TakeOffer(s, m, accepted, now).1.Finished?
    ensures Taken(s, TakeOffer(s, m, accepted, now).0, m, accepted, now)
  {
    AcceptIsCached(s, m, accepted, now);
    assert s.cache.stock == Some(Counters(s.cache));
  }

  // A granted acceptance: the right, and the units that go back before the queue advances.
  lemma {:induction false} AcceptIsExact(s: State, u: UserId, accepted: int, now: Time) returns (s1: State)
    requires InvAt(s, now) && !s.down && now > s.clock && AcceptOffer(s, u, accepted, now).1.Granted?
    ensures var (s', reply) := AcceptOffer(s, u, accepted, now);
      && u in s.db.members && s.db.members[u].available.Some?
      && reply == Granted(AcceptorsRight(s, u, accepted, now))
      && Taken(s, s1, s.db.members[u], accepted, now) && InvAt(s1, now) && !s1.down
      && s' == (if accepted == s.db.members[u].available.value then s1 else AdvanceQueue(s1, now).0)
      && IsHeld(s', reply.right)
  {
    AcceptAnswers(s, u, accepted, now);
    var m := s.cache.members[u];
    Lookup(s, u, now);
    s1 := TakeOffer(s, m, accepted, now).0;
    TakeIsExact(s, m, accepted, now);
    TakeOfferKeepsInv(s, u, accepted, now);
    AcceptTellsTruth(s, u, accepted, now);
    AcceptGoesOn(s, u, accepted, now);
  }

  lemma {:induction false} AcceptGoesOn(s: State, u: UserId, accepted: int, now: Time)
    requires AcceptOffer(s, u, accepted, now).1.Granted? && !s.down
    ensures u in s.cache.members && s.cache.members[u].available.Some?
    ensures var (s1, m) := (TakeOffer(s, s.cache.members[u], accepted, now).0, s.cache.members[u]);
      && AcceptOffer(s, u, accepted, now).0 == (if accepted == m.available.value then s1 else AdvanceQueue(s1, now).0)
      && !s1.down
  {
  }
}
