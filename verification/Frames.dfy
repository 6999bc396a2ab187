/** What no operation touches: the configuration, the clock, the claims and the signs of life. */
module Frames {
  import opened Models
  import opened CacheScripts
  import D = DurableTx
  import opened Service
  import opened System
  import T = Timers

  lemma {:induction false} TouchFrame(s: State, total: nat)
    ensures SameRun(s, Touch(s, total).0)
  {
  }

  lemma {:induction false} RecordedFrame(w: (State, Ended), m: Membership, r: Option<Right>, n: int, now: Time)
    ensures SameRun(w.0, Recorded(w, m, r, n, now).0)
  {
  }

  lemma {:induction false} GrantFrame(s: State, m: Membership, a: Allocation, now: Time)
    requires a.granted == m.quantity
    ensures SameRun(s, ProcessAllocation(s, m, a, now).0)
  {
    var r := NewRight(s, m, a.granted, now);
    var w := Persist(TokenSpent(s), D.IssueRight(s.db, r, Holding(m, r), now));
    RecordedFrame(w, Holding(m, r), Some(r), a.granted, now);
  }

  lemma {:induction false} PartFrame(s: State, m: Membership, a: Allocation, now: Time)
    requires a.granted != m.quantity && a.offered > 0
    ensures SameRun(s, ProcessAllocation(s, m, a, now).0)
  {
    var m' := Offered(m, a.offered, now + s.cfg.offerTtl);
    var w := Persist(s, D.UpsertMembership(s.db, m', now));
    PersistFrame(s, D.UpsertMembership(s.db, m', now));
    RecordedFrame(w, m', None, a.offered, now);
    PartUnfolds(s, m, a, now);
  }

  lemma {:induction false} PersistFrame(s: State, after: D.Durable)
    ensures SameRun(s, Persist(s, after).0)
  {
  }

  lemma {:induction false} PartUnfolds(s: State, m: Membership, a: Allocation, now: Time)
    requires a.granted != m.quantity && a.offered > 0
    ensures var m' := Offered(m, a.offered, now + s.cfg.offerTtl);
      ProcessAllocation(s, m, a, now) == Recorded(Persist(s, D.UpsertMembership(s.db, m', now)), m', None, a.offered, now)
  {
  }

  lemma {:induction false} WaitFrame(s: State, m: Membership, a: Allocation, now: Time)
    requires a.granted != m.quantity && a.offered <= 0
    ensures SameRun(s, ProcessAllocation(s, m, a, now).0)
  {
    var m' := m.(status := if a.soldOut then SoldOut else Queued);
    var w := Persist(s, D.UpsertMembership(s.db, m', now));
    var enqueued :=
      if w.1.Finished? && !a.soldOut then (w.0.(cache := Enqueue(w.0.cache, m.user)), Finished) else w;
    RecordedFrame(enqueued, m', None, 0, now);
  }

  lemma {:induction false} AllocationFrame(s: State, m: Membership, a: Allocation, now: Time)
    ensures SameRun(s, ProcessAllocation(s, m, a, now).0)
  {
    if a.granted == m.quantity {
      GrantFrame(s, m, a, now);
    } else if a.offered > 0 {
      PartFrame(s, m, a, now);
    } else {
      WaitFrame(s, m, a, now);
    }
  }

  lemma {:induction false} AdmitFrame(s: State, u: UserId, quantity: int, now: Time)
    ensures SameRun(s, Admit(s, u, quantity, now).0)
  {
    var (c, a) := TryAllocate(s.cache, quantity);
    assert c.presence == s.cache.presence;
    AllocationFrame(s.(cache := c), NewMembership(s, u, quantity, now), a, now);
  }

  lemma {:induction false} JoinFrame(s: State, u: UserId, quantity: int, others: nat, fetched: Option<nat>, now: Time)
    ensures SameRun(s, JoinQueue(s, u, quantity, others, fetched, now).0)
  {
    if fetched.Some? {
      var s1 := s.(cache := OccupySlot(s.cache, u, others, s.cfg.slotLimit).0);
      TouchFrame(s1, fetched.value);
      AdmitFrame(Touch(s1, fetched.value).0, u, quantity, now);
    }
  }

  lemma {:induction false} TakeOfferFrame(s: State, m: Membership, accepted: int, now: Time)
    requires m.available.Some?
    ensures SameRun(s, TakeOffer(s, m, accepted, now).0)
  {
    var (r, m') := (NewRight(s, m, accepted, now), AcceptedRow(s, m, accepted, now));
    var w := Persist(TokenSpent(s), D.IssueRight(s.db, r, m', now));
    PersistFrame(TokenSpent(s), D.IssueRight(s.db, r, m', now));
    if w.1.Finished? {
      SyncFrame(w.0, m', Some(r), now);
      var synced := Sync(w.0, m', Some(r), now);
      assert SameRun(synced, TakeOffer(s, m, accepted, now).0);
    }
  }

  lemma {:induction false} SyncFrame(s: State, m: Membership, r: Option<Right>, now: Time)
    ensures SameRun(s, Sync(s, m, r, now))
  {
  }

  lemma {:induction false} AcceptFrame(s: State, u: UserId, accepted: int, now: Time)
    ensures SameRun(s, AcceptOffer(s, u, accepted, now).0)
  {
    if u in s.cache.members && s.cache.members[u].available.Some? {
      TakeOfferFrame(s, s.cache.members[u], accepted, now);
    }
  }

  lemma {:induction false} ExpireHeldFrame(s: State, m: Membership, after: D.Durable, right: Right, stamp: Time, removeTimer: bool, now: Time)
    ensures SameRun(s, ExpireHeld(s, m, after, right, stamp, removeTimer, now).0)
  {
  }

  lemma {:induction false} ExpireFrame(s: State, m: Membership, stamp: Time, removeTimer: bool, now: Time)
    ensures SameRun(s, ExpireActiveRight(s, m, stamp, removeTimer, now).0)
  {
    if m.token.Some? {
      var tx := D.ExpireRight(s.db, m.token.value, m.Settled(Declined, stamp), now);
      if tx.TxResult? {
        ExpireHeldFrame(s, m, tx.db, tx.right, stamp, removeTimer, now);
      }
    }
  }

  lemma {:induction false} EndOfferFrame(s: State, m: Membership, stamp: Time, removeTimer: bool, skip: bool, now: Time)
    requires m.available.Some?
    ensures SameRun(s, EndOffer(s, m, stamp, removeTimer, skip, now).0)
  {
    CloseOfferFrame(s, m, stamp, removeTimer, now);
  }

  lemma {:induction false} CloseOfferFrame(s: State, m: Membership, stamp: Time, removeTimer: bool, now: Time)
    requires m.available.Some?
    ensures SameRun(s, CloseOffer(s, m, stamp, removeTimer, now).0)
  {
  }

  lemma {:induction false} LeaveFrame(s: State, u: UserId, offerOnly: bool, now: Time)
    ensures SameRun(s, LeaveQueue(s, u, offerOnly, now).0)
  {
    if u in s.cache.members {
      var m := s.cache.members[u];
      QuitFrame(s, m.Settled(Declined, now), now);
      ExpireFrame(s, m, now, true, now);
      if m.available.Some? {
        EndOfferFrame(s, m, now, true, m.available.value <= 0, now);
      }
    }
  }

  lemma {:induction false} PayFrame(s: State, token: Token, order: OrderId, now: Time)
    ensures SameRun(s, ProcessPayment(s, token, order, now).0)
  {
  }

  lemma {:induction false} QuitFrame(s: State, final: Membership, now: Time)
    ensures SameRun(s, QuitQueue(s, final, now).0)
  {
  }

  lemma {:induction false} ExpireNowFrame(s: State, m: Membership, pass: Time, now: Time)
    ensures SameRun(s, ExpireNow(s, m, pass, now).0)
  {
    match m.status
    case Queued => QuitFrame(s, m.(status := Declined, updatedAt := pass), now);
    case RightActive => ExpireFrame(s, m, now, false, now);
    case _ =>
      if m.available.Some? {
        EndOfferFrame(s, m, pass, false, false, now);
      }
  }

  lemma {:induction false} HandleFrame(s: State, c: T.Claim, now: Time)
    ensures SameRun(s, HandleExpired(s, c, now).0)
  {
    if c.user in s.cache.members {
      ExpireNowFrame(s, s.cache.members[c.user], c.pass, now);
    }
  }

  // Signs of life survive crashes and restarts, and only an appearance sets one.
  lemma {:induction false} NextFrame(s: State, x: Step)
    ensures Next(s, x).cfg == s.cfg && Next(s, x).product == s.product
    ensures Next(s, x).cache.presence
         == if x.event.Appear? then s.cache.presence[x.event.user := Seconds(x.at + s.cfg.presenceTimeout)]
            else s.cache.presence
  {
    var a := Armed(s, x.faults);
    match x.event
    case Join(u, quantity, others, fetched) => JoinFrame(a, u, quantity, others, fetched, x.at);
    case Accept(u, accepted) => AcceptFrame(a, u, accepted, x.at);
    case Leave(u, offerOnly) => LeaveFrame(a, u, offerOnly, x.at);
    case Pay(token, order) => PayFrame(a, token, order, x.at);
    case Handle(c) => HandleFrame(a, c, x.at);
    case _ =>
  }
}
