/** Accepting, leaving, expiring, joining and paying keep the invariants. */
module Operations {
  import opened Models
  import opened CacheScripts
  import opened DurableTx
  import opened Service
  import opened Invariants
  import opened Moves
  import opened Advance

  // A cached live membership as every operation finds it.
  predicate Cached(s: State, m: Membership) {
    && m.user in s.cache.members && s.cache.members[m.user] == m
    && m.user in s.db.members && s.db.members[m.user] == m
    && m.user != NO_NAME && m.product == s.product && MemberShape(m, s.db.rights, s.cfg)
    && s.cache.stock.Some? && s.db.stock.Some? && s.cache.rights == s.db.rights
    && s.cache.members.Keys == s.db.members.Keys
    && s.nextToken !in s.db.rights && !s.down
    && (!m.status.Queued? ==>
          Without(s.cache.queue, m.user) == s.cache.queue && m.user !in s.cache.index)
  }

  lemma {:induction false} Lookup(s: State, u: UserId, now: Time)
    requires InvAt(s, now) && !s.down && u in s.cache.members && s.cache.members[u].IsLive()
    ensures Cached(s, s.cache.members[u]) && s.cache.members[u].user == u
    ensures 0 <= Counters(s.cache).available
    ensures 0 <= HeldBy(s.db.members, u) <= Held(s.db.members)
    ensures Counters(s.cache).available == Counters(s.cache).count - Held(s.db.members)
  {
    UsersDistinct(s.cache);
    WithoutMember(s.cache.queue, u);
    HeldBounds(s.db, s.product, s.cfg, now, u);
  }

  // ---- AcceptOffer ----

  lemma {:induction false} AcceptIsStep(s: State, m: Membership, accepted: int, now: Time)
    requires Cached(s, m) && m.status.OfferPending? && 0 < accepted <= m.available.value
    ensures var (s', e) := TakeOffer(s, m, accepted, now);
      var row := AcceptedRow(s, m, accepted, now);
      Stepped(s, s', e, row, row, Some(NewRight(s, m, accepted, now)))
      && (!e.StoreFailed? ==> s'.nextToken == s.nextToken + 1)
  {
    if TakeOffer(s, m, accepted, now).1.Finished? {
      AcceptIsCached(s, m, accepted, now);
    }
  }

  lemma {:induction false} AcceptIsCached(s: State, m: Membership, accepted: int, now: Time)
    requires Cached(s, m) && m.status.OfferPending? && 0 < accepted <= m.available.value
    requires TakeOffer(s, m, accepted, now).1.Finished?
    ensures var s' := TakeOffer(s, m, accepted, now).0;
      var row := AcceptedRow(s, m, accepted, now);
      Stepped(s, s', Finished, row, row, Some(NewRight(s, m, accepted, now))) && s'.nextToken == s.nextToken + 1
  {
    assert s.cache.index - {m.user} == s.cache.index;
    assert s.cache.stock == Some(Stock(Counters(s.cache).count, Counters(s.cache).available));
  }

  lemma {:induction false} TakeOfferKeepsInv(s: State, u: UserId, accepted: int, now: Time)
    requires InvAt(s, now) && !s.down && now > s.clock
    requires u in s.cache.members && s.cache.members[u].status.OfferPending?
    requires s.cache.members[u].available.Some? && 0 < accepted <= s.cache.members[u].available.value
    ensures InvAt(TakeOffer(s, s.cache.members[u], accepted, now).0, now)
  {
    Lookup(s, u, now);
    var m := s.cache.members[u];
    AcceptIsStep(s, m, accepted, now);
    var (s', e) := TakeOffer(s, m, accepted, now);
    var row, r := AcceptedRow(s, m, accepted, now), NewRight(s, m, accepted, now);
    if !e.StoreFailed? {
      IssueFits(s, s', row, r, now);
    }
    StepKeepsInv(s, s', e, row, row, Some(r), now);
  }

  lemma {:induction false} AcceptUnfolds(s: State, u: UserId, accepted: int, now: Time) returns (s1: State)
    requires !s.down
    ensures s1 == s
      || (u in s.cache.members && s.cache.members[u].status.OfferPending? && s.cache.members[u].available.Some?
          && 0 < accepted <= s.cache.members[u].available.value
          && s1 == TakeOffer(s, s.cache.members[u], accepted, now).0)
    ensures s1.clock == s.clock && AdvancedOrNot(s1, AcceptOffer(s, u, accepted, now).0, now)
  {
    s1 := AcceptOffer(s, u, accepted, now).0;
    if accepted > 0 && u in s.cache.members {
      var m := s.cache.members[u];
      if m.status.OfferPending? && m.available.Some? && accepted <= m.available.value
         && !(m.expiresAt.Some? && now > m.expiresAt.value) {
        s1 := TakeOffer(s, m, accepted, now).0;
      }
    }
  }

  lemma {:induction false} AcceptKeepsInv(s: State, u: UserId, accepted: int, now: Time)
    requires InvAt(s, now) && !s.down && now > s.clock
    ensures InvAt(AcceptOffer(s, u, accepted, now).0, now)
  {
    var s1 := AcceptUnfolds(s, u, accepted, now);
    if s1 != s {
      TakeOfferKeepsInv(s, u, accepted, now);
    }
    AdvanceOrNotKeepsInv(s1, AcceptOffer(s, u, accepted, now).0, now);
  }

  // ---- Giving units back ----

  lemma {:induction false} CloseOfferIsStep(s: State, m: Membership, stamp: Time, removeTimer: bool, now: Time)
    requires Cached(s, m) && m.status.OfferPending?
    ensures var (s', e) := CloseOffer(s, m, stamp, removeTimer, now);
      Stepped(s, s', e, m.Settled(Declined, now), m.Settled(Declined, stamp), None)
  {
    assert s.cache.index - {m.user} == s.cache.index;
  }

  lemma {:induction false} CloseOfferKeepsInv(s: State, u: UserId, stamp: Time, removeTimer: bool, now: Time)
    requires InvAt(s, now) && !s.down && now > s.clock
    requires u in s.cache.members && s.cache.members[u].status.OfferPending? && s.cache.members[u].available.Some?
    ensures InvAt(CloseOffer(s, s.cache.members[u], stamp, removeTimer, now).0, now)
  {
    Lookup(s, u, now);
    var m := s.cache.members[u];
    CloseOfferIsStep(s, m, stamp, removeTimer, now);
    var (s', e) := CloseOffer(s, m, stamp, removeTimer, now);
    if !e.StoreFailed? {
      RowFits(s, s', m.Settled(Declined, now), now);
    }
    StepKeepsInv(s, s', e, m.Settled(Declined, now), m.Settled(Declined, stamp), None, now);
  }

  lemma {:induction false} EndOfferUnfolds(s: State, m: Membership, stamp: Time, removeTimer: bool, skip: bool, now: Time)
    requires !s.down && m.available.Some?
    ensures var s1 := CloseOffer(s, m, stamp, removeTimer, now).0;
      s1.clock == s.clock && AdvancedOrNot(s1, EndOffer(s, m, stamp, removeTimer, skip, now).0, now)
  {
  }

  lemma {:induction false} EndOfferKeepsInv(s: State, u: UserId, stamp: Time, removeTimer: bool, skip: bool, now: Time)
    requires InvAt(s, now) && !s.down && now > s.clock
    requires u in s.cache.members && s.cache.members[u].status.OfferPending? && s.cache.members[u].available.Some?
    ensures InvAt(EndOffer(s, s.cache.members[u], stamp, removeTimer, skip, now).0, now)
  {
    var m := s.cache.members[u];
    CloseOfferKeepsInv(s, u, stamp, removeTimer, now);
    EndOfferUnfolds(s, m, stamp, removeTimer, skip, now);
    AdvanceOrNotKeepsInv(
      CloseOffer(s, m, stamp, removeTimer, now).0, EndOffer(s, m, stamp, removeTimer, skip, now).0, now);
  }

  lemma {:induction false} QuitIsStep(s: State, m: Membership, stamp: Time, now: Time)
    requires Cached(s, m) && m.status.Queued?
    ensures m.(status := Declined, updatedAt := stamp) == m.Settled(Declined, stamp)
    ensures var (s', e) := QuitQueue(s, m.Settled(Declined, stamp), now);
      Stepped(s, s', e, m.Settled(Declined, now), m.Settled(Declined, stamp), None)
  {
    assert s.cache.stock == Some(Stock(Counters(s.cache).count, Counters(s.cache).available));
  }

  lemma {:induction false} QuitKeepsInv(s: State, u: UserId, stamp: Time, now: Time)
    requires InvAt(s, now) && !s.down && now > s.clock
    requires u in s.cache.members && s.cache.members[u].status.Queued?
    ensures var m := s.cache.members[u];
      m.(status := Declined, updatedAt := stamp) == m.Settled(Declined, stamp)
      && InvAt(QuitQueue(s, m.Settled(Declined, stamp), now).0, now)
  {
    Lookup(s, u, now);
    var m := s.cache.members[u];
    QuitIsStep(s, m, stamp, now);
    var (s', e) := QuitQueue(s, m.Settled(Declined, stamp), now);
    if !e.StoreFailed? {
      RowFits(s, s', m.Settled(Declined, now), now);
    }
    StepKeepsInv(s, s', e, m.Settled(Declined, now), m.Settled(Declined, stamp), None, now);
  }

  function ExpiredRight(s: State, m: Membership): Right
    requires m.token.Some? && m.token.value in s.db.rights
  {
    s.db.rights[m.token.value].(status := Expired)
  }

  // The membership of an active right always wins its own expiry transaction.
  lemma {:induction false} ExpireIsStep(s: State, m: Membership, stamp: Time, removeTimer: bool, now: Time)
    requires Cached(s, m) && m.status.RightActive?
    requires s.db.rights[m.token.value].token == m.token.value
    ensures var tx := ExpireRight(s.db, m.token.value, m.Settled(Declined, stamp), now);
      tx.TxResult? && tx.transitioned && tx.right == ExpiredRight(s, m)
      && var (s', e) := ExpireHeld(s, m, tx.db, tx.right, stamp, removeTimer, now);
         Stepped(s, s', e, m.Settled(Declined, now), m.Settled(Declined, stamp), Some(ExpiredRight(s, m)))
  {
    ExpiryWins(s, m, stamp, now);
    var tx := ExpireRight(s.db, m.token.value, m.Settled(Declined, stamp), now);
    if ExpireHeld(s, m, tx.db, tx.right, stamp, removeTimer, now).1.Finished? {
      ExpireIsCached(s, m, tx.db, stamp, removeTimer, now);
    }
  }

  lemma {:induction false} ExpiryWins(s: State, m: Membership, stamp: Time, now: Time)
    requires Cached(s, m) && m.status.RightActive?
    ensures var tx := ExpireRight(s.db, m.token.value, m.Settled(Declined, stamp), now);
      tx.TxResult? && tx.transitioned && tx.right == ExpiredRight(s, m)
      && tx.db.members == s.db.members[m.user := m.Settled(Declined, now)]
      && tx.db.rights == s.db.rights[m.token.value := ExpiredRight(s, m)]
      && tx.db.stock == s.db.stock && tx.db.outbox == s.db.outbox
  {
  }

  lemma {:induction false} ExpireIsCached(s: State, m: Membership, after: Durable, stamp: Time, removeTimer: bool, now: Time)
    requires Cached(s, m) && m.status.RightActive? && s.db.rights[m.token.value].token == m.token.value
    requires after.members == s.db.members[m.user := m.Settled(Declined, now)]
    requires after.rights == s.db.rights[m.token.value := ExpiredRight(s, m)]
    requires after.stock == s.db.stock && after.outbox == s.db.outbox
    requires ExpireHeld(s, m, after, ExpiredRight(s, m), stamp, removeTimer, now).1.Finished?
    ensures Stepped(s, ExpireHeld(s, m, after, ExpiredRight(s, m), stamp, removeTimer, now).0, Finished,
      m.Settled(Declined, now), m.Settled(Declined, stamp), Some(ExpiredRight(s, m)))
  {
    assert s.cache.index - {m.user} == s.cache.index;
  }

  lemma {:induction false} ExpiryFits(s: State, s': State, m: Membership, now: Time)
    requires StoreInv(s, now) && s.clock < now
    requires m.user in s.db.members && s.db.members[m.user] == m && m.status.RightActive?
    requires RowsMoved(s.db, s'.db, m.Settled(Declined, now), Some(ExpiredRight(s, m)))
    requires s'.nextToken >= s.nextToken
    ensures FitsRows(s, s', m.Settled(Declined, now), Some(ExpiredRight(s, m)), now)
  {
  }

  lemma {:induction false} ExpireHeldKeepsInv(s: State, u: UserId, stamp: Time, removeTimer: bool, now: Time)
    requires InvAt(s, now) && !s.down && now > s.clock
    requires u in s.cache.members && s.cache.members[u].status.RightActive?
    ensures var m := s.cache.members[u];
      m.token.Some?
      && var tx := ExpireRight(s.db, m.token.value, m.Settled(Declined, stamp), now);
         tx.TxResult? && tx.transitioned
         && InvAt(ExpireHeld(s, m, tx.db, tx.right, stamp, removeTimer, now).0, now)
  {
    Lookup(s, u, now);
    var m := s.cache.members[u];
    ExpireIsStep(s, m, stamp, removeTimer, now);
    var tx := ExpireRight(s.db, m.token.value, m.Settled(Declined, stamp), now);
    var (s', e) := ExpireHeld(s, m, tx.db, tx.right, stamp, removeTimer, now);
    if !e.StoreFailed? {
      ExpiryFits(s, s', m, now);
    }
    StepKeepsInv(s, s', e, m.Settled(Declined, now), m.Settled(Declined, stamp), Some(ExpiredRight(s, m)), now);
  }

  lemma {:induction false} ExpireUnfolds(s: State, m: Membership, stamp: Time, removeTimer: bool, now: Time)
    requires !s.down && m.token.Some?
    requires var tx := ExpireRight(s.db, m.token.value, m.Settled(Declined, stamp), now);
      tx.TxResult? && tx.transitioned
    ensures var tx := ExpireRight(s.db, m.token.value, m.Settled(Declined, stamp), now);
      var s1 := ExpireHeld(s, m, tx.db, tx.right, stamp, removeTimer, now).0;
      s1.clock == s.clock && AdvancedOrNot(s1, ExpireActiveRight(s, m, stamp, removeTimer, now).0, now)
  {
  }

  lemma {:induction false} ExpireKeepsInv(s: State, u: UserId, stamp: Time, removeTimer: bool, now: Time)
    requires InvAt(s, now) && !s.down && now > s.clock
    requires u in s.cache.members && s.cache.members[u].status.RightActive?
    ensures InvAt(ExpireActiveRight(s, s.cache.members[u], stamp, removeTimer, now).0, now)
  {
    var m := s.cache.members[u];
    ExpireHeldKeepsInv(s, u, stamp, removeTimer, now);
    ExpireUnfolds(s, m, stamp, removeTimer, now);
    var tx := ExpireRight(s.db, m.token.value, m.Settled(Declined, stamp), now);
    AdvanceOrNotKeepsInv(
      ExpireHeld(s, m, tx.db, tx.right, stamp, removeTimer, now).0,
      ExpireActiveRight(s, m, stamp, removeTimer, now).0, now);
  }

  // The four ways a request to leave can go.
  lemma {:induction false} LeaveUnfolds(s: State, u: UserId, offerOnly: bool, now: Time)
    ensures var s' := LeaveQueue(s, u, offerOnly, now).0;
      s' == s
      || (u in s.cache.members
          && var m := s.cache.members[u];
             || (m.status.Queued? && s' == QuitQueue(s, m.Settled(Declined, now), now).0)
             || (m.status.OfferPending? && m.available.Some?
                 && s' == EndOffer(s, m, now, true, m.available.value <= 0, now).0)
             || (m.status.RightActive? && s' == ExpireActiveRight(s, m, now, true, now).0))
  {
  }

  lemma {:induction false} LeaveKeepsInv(s: State, u: UserId, offerOnly: bool, now: Time)
    requires InvAt(s, now) && !s.down && now > s.clock
    ensures InvAt(LeaveQueue(s, u, offerOnly, now).0, now)
  {
    LeaveUnfolds(s, u, offerOnly, now);
    if u in s.cache.members {
      var m := s.cache.members[u];
      if m.status.Queued? {
        QuitKeepsInv(s, u, now, now);
      } else if m.status.OfferPending? && m.available.Some? {
        EndOfferKeepsInv(s, u, now, true, m.available.value <= 0, now);
      } else if m.status.RightActive? {
        ExpireKeepsInv(s, u, now, true, now);
      }
    }
  }
}
