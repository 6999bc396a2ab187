/**
What one step may change in the durable rows: rights and orders are final, nobody's
membership changes but the actor's and that of users whose turn it is, and units go to
users in the order in which they queued.
*/
module Progress {
  import opened Models
  import opened CacheScripts
  import opened DurableTx
  import opened Service
  import opened Invariants
  import opened Moves
  import opened Advance
  import opened Operations
  import opened Payment
  import opened Joining
  import opened Expiry
  import opened Restart
  import opened System
  import T = Timers

  predicate Queues(d: Durable, u: UserId) {
    u in d.members && d.members[u].status.Queued?
  }

  // w joined the queue before u and both still wait.
  predicate Ahead(d: Durable, w: UserId, u: UserId) {
    Queues(d, w) && Queues(d, u) && d.members[w].updatedAt < d.members[u].updatedAt
  }

  predicate Gains(d: Durable, d': Durable, w: UserId) {
    HeldBy(d'.members, w) > HeldBy(d.members, w)
  }

  // A decision leaves everything but the outcome of a right as it was issued.
  predicate Succeeds(r: Right, r': Right) {
    if r.status.Active? then r' == r.(status := r'.status, order := r'.order, usedAt := r'.usedAt)
    else r' == r
  }

  predicate RightsAreFinal(d: Durable, d': Durable) {
    forall t :: t in d.rights ==> t in d'.rights && Succeeds(d.rights[t], d'.rights[t])
  }

  predicate OrdersAreFinal(d: Durable, d': Durable) {
    forall t :: t in d.outbox ==> t in d'.outbox && d'.outbox[t] == d.outbox[t]
  }

  predicate StockOnlyFalls(d: Durable, d': Durable) {
    d.stock.Some? ==>
      d'.stock.Some? && d'.stock.value.count <= d.stock.value.count && d'.stock.value.total == d.stock.value.total
  }

  predicate IsDecision(s: MembershipStatus) {
    s.RightActive? || s.OfferPending? || s.SoldOut?
  }

  // Bystanders keep their rows, unless they waited and their turn came.
  predicate OnlyTheActor(d: Durable, d': Durable, who: Option<UserId>) {
    && d.members.Keys <= d'.members.Keys
    && forall u :: u in d'.members && who != Some(u) ==>
         u in d.members
         && (d'.members[u] == d.members[u] || (Queues(d, u) && IsDecision(d'.members[u].status)))
  }

  // A place in the queue is kept with its stamp, or taken now.
  ghost predicate PlacesAreKept(d: Durable, d': Durable, now: Time) {
    forall u :: Queues(d', u) ==>
      if Queues(d, u) then d'.members[u] == d.members[u] else d'.members[u].updatedAt == now
  }

  ghost predicate InTurn(d: Durable, d': Durable) {
    forall u, w :: Queues(d, u) && Queues(d', u) && Gains(d, d', w) ==> Ahead(d, w, u)
  }

  ghost predicate Progresses(d: Durable, d': Durable, who: Option<UserId>, now: Time) {
    && RightsAreFinal(d, d') && OrdersAreFinal(d, d') && StockOnlyFalls(d, d')
    && OnlyTheActor(d, d', who) && PlacesAreKept(d, d', now) && InTurn(d, d')
  }

  lemma {:induction false} Composes(d: Durable, d1: Durable, d2: Durable, who: Option<UserId>, now: Time)
    requires Progresses(d, d1, who, now) && Progresses(d1, d2, None, now)
    requires forall u :: u in d.members ==> d.members[u].updatedAt <= now
    ensures Progresses(d, d2, who, now)
  {
    forall u, w | Queues(d, u) && Queues(d2, u) && Gains(d, d2, w)
      ensures Ahead(d, w, u)
    {
      if Gains(d, d1, w) {
        assert Queues(d1, u);
      } else {
        assert Gains(d1, d2, w) && Queues(d1, u);
        assert Ahead(d1, w, u);
      }
    }
    assert RightsAreFinal(d, d2) && OrdersAreFinal(d, d2) && StockOnlyFalls(d, d2);
    assert OnlyTheActor(d, d2, who) && PlacesAreKept(d, d2, now);
  }

  // ---- One move ----

  // Whose row may move how.
  ghost predicate Allowed(d: Durable, m: Membership, r: Option<Right>, who: Option<UserId>, now: Time) {
    && m.updatedAt == now
    && (who == Some(m.user) || (Queues(d, m.user) && IsDecision(m.status)))
    && (m.status.Queued? ==> !Queues(d, m.user))
    && (r.Some? && r.value.token in d.rights ==> Succeeds(d.rights[r.value.token], r.value))
    && (m.Units() > HeldBy(d.members, m.user) ==>
          forall u :: Queues(d, u) && u != m.user ==> Ahead(d, m.user, u))
  }

  lemma {:induction false} MoveProgresses(d: Durable, d': Durable, m: Membership, r: Option<Right>, who: Option<UserId>, now: Time)
    requires RowsMoved(d, d', m, r) && Allowed(d, m, r, who, now)
    requires OrdersAreFinal(d, d') && StockOnlyFalls(d, d')
    ensures Progresses(d, d', who, now)
  {
    assert forall w :: w != m.user ==> HeldBy(d'.members, w) == HeldBy(d.members, w);
    assert InTurn(d, d');
    assert OnlyTheActor(d, d', who) && RightsAreFinal(d, d') && PlacesAreKept(d, d', now);
  }

  lemma {:induction false} StayProgresses(d: Durable, d': Durable, who: Option<UserId>, now: Time)
    requires d' == d.(stock := d'.stock) && StockOnlyFalls(d, d')
    ensures Progresses(d, d', who, now)
  {
  }

  lemma {:induction false} StepProgresses(s: State, s': State, e: Ended, m: Membership, c: Membership, r: Option<Right>, who: Option<UserId>, now: Time)
    requires Stepped(s, s', e, m, c, r) && Allowed(s.db, m, r, who, now)
    ensures Progresses(s.db, s'.db, who, now)
  {
    if e.StoreFailed? {
      StayProgresses(s.db, s'.db, who, now);
    } else {
      MoveProgresses(s.db, s'.db, m, r, who, now);
    }
  }

  // ---- Advancing ----

  // The head of the queue has the oldest stamp of all who wait.
  lemma {:induction false} HeadIsFirst(c: Cache, u: UserId)
    requires QueueAgrees(c) && c.queue != [] && u in c.members && c.members[u].status.Queued? && u != c.queue[0].user
    ensures c.queue[0].user in c.members && c.members[c.queue[0].user].status.Queued?
    ensures c.members[c.queue[0].user].updatedAt < c.members[u].updatedAt
  {
    HeadHasMembership(c);
    assert u in QueuedUsers(c.members);
    var e :| e in c.queue && e.user == u;
    var i :| 0 <= i < |c.queue| && c.queue[i] == e;
    assert 0 < i;
  }

  lemma {:induction false} HeadIsOldest(s: State, m: Membership, now: Time)
    requires InvAt(s, now) && !s.down && Head(s, m)
    ensures forall u :: Queues(s.db, u) && u != m.user ==> Ahead(s.db, m.user, u)
  {
    forall u | Queues(s.db, u) && u != m.user
      ensures Ahead(s.db, m.user, u)
    {
      HeadIsFirst(s.cache, u);
    }
  }

  lemma {:induction false} VerdictAllowed(s: State, m: Membership, now: Time)
    requires InvAt(s, now) && !s.down && Head(s, m)
    ensures Allowed(s.db, Verdict(s, m, now), VerdictRight(s, m, now), None, now)
  {
    HeadIsOldest(s, m, now);
  }

  lemma {:induction false} AdvanceProgresses(s: State, now: Time)
    requires InvAt(s, now) && !s.down && now > s.clock
    ensures Progresses(s.db, AdvanceQueue(s, now).0.db, None, now)
    decreases |s.cache.queue|
  {
    var s1, e, m := OneTurn(s, now);
    if m.Some? {
      VerdictAllowed(s, m.value, now);
      StepProgresses(s, s1, e, Verdict(s, m.value, now), Verdict(s, m.value, now), VerdictRight(s, m.value, now), None, now);
      if e.Finished? {
        AdvanceProgresses(s1, now);
        Composes(s.db, s1.db, AdvanceQueue(s1, now).0.db, None, now);
      }
    } else {
      StayProgresses(s.db, s.db, None, now);
    }
  }

  // An operation is a move of its actor, after which the queue may advance.
  lemma {:induction false} ThenAdvances(s: State, s1: State, s2: State, who: Option<UserId>, now: Time)
    requires InvAt(s, now) && InvAt(s1, now) && now > s1.clock && AdvancedOrNot(s1, s2, now)
    requires Progresses(s.db, s1.db, who, now)
    ensures Progresses(s.db, s2.db, who, now)
  {
    if s2 != s1 {
      AdvanceProgresses(s1, now);
    } else {
      StayProgresses(s1.db, s1.db, None, now);
    }
    Composes(s.db, s1.db, s2.db, who, now);
  }

  // ---- The operations ----

  lemma {:induction false} AcceptProgresses(s: State, u: UserId, accepted: int, now: Time)
    requires InvAt(s, now) && !s.down && now > s.clock
    ensures Progresses(s.db, AcceptOffer(s, u, accepted, now).0.db, Some(u), now)
  {
    var s1 := AcceptUnfolds(s, u, accepted, now);
    if s1 != s {
      Lookup(s, u, now);
      var m := s.cache.members[u];
      TakeOfferKeepsInv(s, u, accepted, now);
      AcceptIsStep(s, m, accepted, now);
      var row := AcceptedRow(s, m, accepted, now);
      StepProgresses(s, s1, TakeOffer(s, m, accepted, now).1, row, row, Some(NewRight(s, m, accepted, now)), Some(u), now);
    } else {
      StayProgresses(s.db, s.db, Some(u), now);
    }
    ThenAdvances(s, s1, AcceptOffer(s, u, accepted, now).0, Some(u), now);
  }

  lemma {:induction false} CloseProgresses(s: State, u: UserId, stamp: Time, removeTimer: bool, now: Time)
    requires InvAt(s, now) && !s.down
    requires u in s.cache.members && s.cache.members[u].status.OfferPending? && s.cache.members[u].available.Some?
    ensures Progresses(s.db, CloseOffer(s, s.cache.members[u], stamp, removeTimer, now).0.db, Some(u), now)
  {
    var m := s.cache.members[u];
    Lookup(s, u, now);
    CloseOfferIsStep(s, m, stamp, removeTimer, now);
    var (s1, e) := CloseOffer(s, m, stamp, removeTimer, now);
    StepProgresses(s, s1, e, m.Settled(Declined, now), m.Settled(Declined, stamp), None, Some(u), now);
  }

  lemma {:induction false} EndOfferProgresses(s: State, u: UserId, stamp: Time, removeTimer: bool, skip: bool, now: Time)
    requires InvAt(s, now) && !s.down && now > s.clock
    requires u in s.cache.members && s.cache.members[u].status.OfferPending? && s.cache.members[u].available.Some?
    ensures Progresses(s.db, EndOffer(s, s.cache.members[u], stamp, removeTimer, skip, now).0.db, Some(u), now)
  {
    var m := s.cache.members[u];
    CloseOfferKeepsInv(s, u, stamp, removeTimer, now);
    CloseProgresses(s, u, stamp, removeTimer, now);
    EndOfferUnfolds(s, m, stamp, removeTimer, skip, now);
    ThenAdvances(s, CloseOffer(s, m, stamp, removeTimer, now).0,
      EndOffer(s, m, stamp, removeTimer, skip, now).0, Some(u), now);
  }

  lemma {:induction false} QuitProgresses(s: State, u: UserId, stamp: Time, now: Time)
    requires InvAt(s, now) && !s.down && now > s.clock
    requires u in s.cache.members && s.cache.members[u].status.Queued?
    ensures Progresses(s.db, QuitQueue(s, s.cache.members[u].Settled(Declined, stamp), now).0.db, Some(u), now)
  {
    var m := s.cache.members[u];
    Lookup(s, u, now);
    QuitIsStep(s, m, stamp, now);
    var (s1, e) := QuitQueue(s, m.Settled(Declined, stamp), now);
    StepProgresses(s, s1, e, m.Settled(Declined, now), m.Settled(Declined, stamp), None, Some(u), now);
  }

  lemma {:induction false} ExpireProgresses(s: State, u: UserId, stamp: Time, removeTimer: bool, now: Time)
    requires InvAt(s, now) && !s.down && now > s.clock
    requires u in s.cache.members && s.cache.members[u].status.RightActive?
    ensures Progresses(s.db, ExpireActiveRight(s, s.cache.members[u], stamp, removeTimer, now).0.db, Some(u), now)
  {
    var m := s.cache.members[u];
    Lookup(s, u, now);
    var s1, e := ExpiredHolderIsOut(s, u, stamp, removeTimer, now);
    ExpireIsStep(s, m, stamp, removeTimer, now);
    StepProgresses(s, s1, e, m.Settled(Declined, now), m.Settled(Declined, stamp), Some(ExpiredRight(s, m)), Some(u), now);
    ExpireUnfolds(s, m, stamp, removeTimer, now);
    ThenAdvances(s, s1, ExpireActiveRight(s, m, stamp, removeTimer, now).0, Some(u), now);
  }

  lemma {:induction false} LeaveProgresses(s: State, u: UserId, offerOnly: bool, now: Time)
    requires InvAt(s, now) && !s.down && now > s.clock
    ensures Progresses(s.db, LeaveQueue(s, u, offerOnly, now).0.db, Some(u), now)
  {
    LeaveUnfolds(s, u, offerOnly, now);
    StayProgresses(s.db, s.db, Some(u), now);
    if u in s.cache.members {
      var m := s.cache.members[u];
      if m.status.Queued? {
        QuitProgresses(s, u, now, now);
      } else if m.status.OfferPending? && m.available.Some? {
        EndOfferProgresses(s, u, now, true, m.available.value <= 0, now);
      } else if m.status.RightActive? {
        ExpireProgresses(s, u, now, true, now);
      }
    }
  }

  lemma {:induction false} SoldProgresses(s: State, s1: State, m: Membership, token: Token, order: OrderId, now: Time)
    requires Cached(s, m) && m.status.RightActive? && m.token == Some(token)
    requires Sells(s, token, order, now) && s.db.rights[token].user == m.user && s.db.rights[token].quantity == m.quantity
    requires token !in s.db.outbox && m.quantity > 0 && s.db.stock.value.count >= m.quantity
    requires s.db.rights[token].token == token
    requires RowsMoved(s.db, s1.db, m.Settled(Purchased, now), Some(UsedRight(s, token, order, now)))
    requires s1.db.stock == Some(s.db.stock.value.(count := s.db.stock.value.count - m.quantity))
    requires s1.db.outbox == s.db.outbox[token := OutboxRow(token, order, s.db.rights[token].product, m.quantity)]
    ensures Progresses(s.db, s1.db, Some(m.user), now)
  {
    MoveProgresses(s.db, s1.db, m.Settled(Purchased, now), Some(UsedRight(s, token, order, now)), Some(m.user), now);
  }

  lemma {:induction false} SaleProgresses(s: State, token: Token, order: OrderId, now: Time)
    requires InvAt(s, now) && !s.down && now > s.clock && Sells(s, token, order, now)
    ensures UseRight(s.db, token, order, now).TxResult?
    ensures Progresses(s.db, Paid(s, token, order, now).0.db, Some(s.db.rights[token].user), now)
  {
    var m := Holder(s, token, now);
    PaymentIsMove(s, m, token, order, now);
    var (s1, e) := Paid(s, token, order, now);
    if e.StoreFailed? {
      StayProgresses(s.db, s1.db, Some(m.user), now);
    } else {
      SoldProgresses(s, s1, m, token, order, now);
    }
  }

  // A webhook acts for the holder of a right that it really sells, and otherwise for nobody.
  function Payer(s: State, token: Token, order: OrderId, now: Time): Option<UserId> {
    if Sells(s, token, order, now) then Some(s.db.rights[token].user) else None
  }

  lemma {:induction false} PaymentProgresses(s: State, token: Token, order: OrderId, now: Time)
    requires InvAt(s, now) && !s.down && now > s.clock
    ensures Progresses(s.db, ProcessPayment(s, token, order, now).0.db, Payer(s, token, order, now), now)
  {
    PaymentUnfolds(s, token, order, now);
    var tx := UseRight(s.db, token, order, now);
    var who := Payer(s, token, order, now);
    StayProgresses(s.db, s.db, who, now);
    if tx.TxResult? {
      var s1 := Paid(s, token, order, now).0;
      if tx.transitioned {
        SaleKeepsInv(s, token, order, now);
        SaleProgresses(s, token, order, now);
      } else {
        ReplayRecordsNothing(s, token, order, now);
        FaultsDoNotMatter(s, s1, now);
      }
      ThenAdvances(s, s1, ProcessPayment(s, token, order, now).0, who, now);
    }
  }

  // A newcomer is given units only when nobody waits.
  lemma {:induction false} EntryAllowed(s: State, u: UserId, quantity: int, now: Time)
    requires InvAt(s, now) && !s.down && Newcomer(s, u)
    ensures Allowed(s.db, EntryRow(s, u, quantity, now), EntryRight(s, u, quantity, now), Some(u), now)
  {
    if s.cache.queue == [] {
      NobodyQueues(s, now);
    }
  }

  lemma {:induction false} NobodyQueues(s: State, now: Time)
    requires InvAt(s, now) && !s.down && s.cache.queue == []
    ensures forall v :: !Queues(s.db, v)
  {
    forall v | v in s.db.members
      ensures !s.db.members[v].status.Queued?
    {
      if s.cache.members[v].status.Queued? {
        WaiterIsQueued(s.cache, v);
      }
    }
  }

  lemma {:induction false} EntryProgresses(s: State, u: UserId, quantity: int, now: Time)
    requires InvAt(s, now) && !s.down && s.db.stock.Some?
    requires Idempotent(s.cache, u).None? && quantity > 0
    ensures Progresses(s.db, Admit(WithSlot(s, u), u, quantity, now).0.db, Some(u), now)
  {
    IsNewcomer(s, u, now);
    AdmitIsStep(s, u, quantity, now);
    EntryAllowed(s, u, quantity, now);
    var (s1, e) := Admit(WithSlot(s, u), u, quantity, now);
    var row, r := EntryRow(s, u, quantity, now), EntryRight(s, u, quantity, now);
    if e.StoreFailed? {
      assert s1.db == s1.(cache := ReleaseSlot(s1.cache, u)).db;
      StayProgresses(s.db, s1.db, Some(u), now);
    } else {
      StepProgresses(s, s1, e, row, row, r, Some(u), now);
    }
  }

  // First contact writes no row of the queue, so what follows it may as well be compared
  // with the rows before it.
  lemma {:induction false} TouchedProgresses(d: Durable, d1: Durable, d2: Durable, who: Option<UserId>, now: Time)
    requires d1 == d.(stock := d1.stock) && StockOnlyFalls(d, d1) && Progresses(d1, d2, who, now)
    ensures Progresses(d, d2, who, now)
  {
    forall u, w | Queues(d, u) && Queues(d2, u) && Gains(d, d2, w)
      ensures Ahead(d, w, u)
    {
      assert Queues(d1, u) && Gains(d1, d2, w);
      assert Ahead(d1, w, u);
    }
    assert PlacesAreKept(d, d2, now) by {
      forall u | Queues(d2, u)
        ensures if Queues(d, u) then d2.members[u] == d.members[u] else d2.members[u].updatedAt == now
      {
        assert Queues(d, u) <==> Queues(d1, u);
      }
    }
  }

  lemma {:induction false} TouchIsStock(s: State, total: nat)
    requires Inv(s) && !s.down
    requires s.db.stock.None? ==> total == s.cfg.initialStock
    ensures var d1 := Touch(s, total).0.db; d1 == s.db.(stock := d1.stock) && StockOnlyFalls(s.db, d1)
  {
    if s.db.stock.None? {
      FirstTouch(s, total);
    } else {
      LaterTouch(s, total);
    }
  }

  lemma {:induction false} JoinProgresses(s: State, u: UserId, quantity: int, others: nat, fetched: Option<nat>, now: Time)
    requires Inv(s) && !s.down && now > s.clock && u != NO_NAME
    requires s.db.stock.None? && fetched.Some? ==> fetched.value == s.cfg.initialStock
    ensures Progresses(s.db, JoinQueue(s, u, quantity, others, fetched, now).0.db, Some(u), now)
  {
    if Idempotent(s.cache, u).None? {
      NobodyHasSlot(s, u);
    }
    JoinUnfolds(s, u, quantity, others, fetched, now);
    var s' := JoinQueue(s, u, quantity, others, fetched, now).0;
    if s' == s {
      StayProgresses(s.db, s.db, Some(u), now);
    } else {
      TouchKeepsInv(s, fetched.value);
      TouchThenSlot(s, u, fetched.value);
      TouchIsStock(s, fetched.value);
      var (s1, e1) := Touch(s, fetched.value);
      if e1.Finished? {
        LaterKeepsInv(s1, now);
        EntryProgresses(s1, u, quantity, now);
        TouchedProgresses(s.db, s1.db, s'.db, Some(u), now);
      } else {
        StayProgresses(s.db, s'.db, Some(u), now);
      }
    }
  }

  lemma {:induction false} RightExpiryProgresses(s: State, u: UserId, pass: Time, now: Time)
    requires InvAt(s, now) && !s.down && now > s.clock
    requires u in s.cache.members && s.cache.members[u].status.RightActive?
    ensures Progresses(s.db, ExpireNow(s, s.cache.members[u], pass, now).0.db, Some(u), now)
  {
    ExpireProgresses(s, u, now, false, now);
  }

  lemma {:induction false} OfferExpiryProgresses(s: State, u: UserId, pass: Time, now: Time)
    requires InvAt(s, now) && !s.down && now > s.clock
    requires u in s.cache.members && s.cache.members[u].status.OfferPending? && s.cache.members[u].available.Some?
    ensures Progresses(s.db, ExpireNow(s, s.cache.members[u], pass, now).0.db, Some(u), now)
  {
    EndOfferProgresses(s, u, pass, false, false, now);
  }

  lemma {:induction false} AbsenceProgresses(s: State, u: UserId, pass: Time, now: Time)
    requires InvAt(s, now) && !s.down && now > s.clock
    requires u in s.cache.members && s.cache.members[u].status.Queued?
    ensures Progresses(s.db, ExpireNow(s, s.cache.members[u], pass, now).0.db, Some(u), now)
  {
    var m := s.cache.members[u];
    Lookup(s, u, now);
    if IsPresent(s.cache, m.user, pass) {
      StayProgresses(s.db, s.db, Some(u), now);
    } else {
      QuitProgresses(s, u, pass, now);
      QuitIsStep(s, m, pass, now);
    }
  }

  lemma {:induction false} ExpireNowProgresses(s: State, u: UserId, pass: Time, now: Time)
    requires InvAt(s, now) && !s.down && now > s.clock
    requires u in s.cache.members && s.cache.members[u].IsLive()
    ensures Progresses(s.db, ExpireNow(s, s.cache.members[u], pass, now).0.db, Some(u), now)
  {
    Lookup(s, u, now);
    if s.cache.members[u].status.RightActive? {
      RightExpiryProgresses(s, u, pass, now);
    } else if s.cache.members[u].status.OfferPending? {
      OfferExpiryProgresses(s, u, pass, now);
    } else {
      AbsenceProgresses(s, u, pass, now);
    }
  }

  lemma {:induction false} HandleProgresses(s: State, c: T.Claim, now: Time)
    requires InvAt(s, now) && !s.down && now > s.clock
    ensures Progresses(s.db, HandleClaim(s, c, now).db, Some(c.user), now)
  {
    if c.user in s.cache.members && s.cache.members[c.user].IsLive() {
      LiveClaimProgresses(s, c, now);
    } else {
      StayProgresses(s.db, s.db, Some(c.user), now);
      if c.user in s.cache.members {
        HandleExpiredUnfolds(s, c, now);
      }
    }
    FilingKeepsRows(s, c, now);
  }

  lemma {:induction false} LiveClaimProgresses(s: State, c: T.Claim, now: Time)
    requires InvAt(s, now) && !s.down && now > s.clock
    requires c.user in s.cache.members && s.cache.members[c.user].IsLive()
    ensures Progresses(s.db, HandleExpired(s, c, now).0.db, Some(c.user), now)
  {
    Lookup(s, c.user, now);
    HandleExpiredUnfolds(s, c, now);
    if IsStale(c, s.cache.members[c.user]) {
      StayProgresses(s.db, s.db, Some(c.user), now);
    } else {
      ExpireNowProgresses(s, c.user, c.pass, now);
    }
  }

  lemma {:induction false} FilingKeepsRows(s: State, c: T.Claim, now: Time)
    ensures HandleClaim(s, c, now).db == HandleExpired(s, c, now).0.db
  {
  }

  // ---- Every step ----

  // On whose behalf a step is taken.
  function Actor(s: State, e: Event, now: Time): Option<UserId> {
    match e
    case Join(u, _, _, _) => Some(u)
    case Accept(u, _) => Some(u)
    case Leave(u, _) => Some(u)
    case Pay(token, order) => Payer(s, token, order, now)
    case Handle(c) => Some(c.user)
    case _ => None
  }

  lemma {:induction false} OperationProgresses(s: State, e: Event, now: Time)
    requires Inv(s) && Possible(s, Step(e, now, s.faults)) && !s.down && (e.Join? || e.Accept? || e.Leave? || e.Pay?)
    ensures Progresses(s.db, Effect(s, e, now).db, Actor(s, e, now), now)
  {
    LaterKeepsInv(s, now);
    match e
    case Join(u, quantity, others, fetched) => JoinProgresses(s, u, quantity, others, fetched, now);
    case Accept(u, accepted) => AcceptProgresses(s, u, accepted, now);
    case Leave(u, offerOnly) => LeaveProgresses(s, u, offerOnly, now);
    case Pay(token, order) => PaymentProgresses(s, token, order, now);
  }

  lemma {:induction false} TimerStepKeepsRows(s: State, e: Event, now: Time)
    requires Inv(s) && Possible(s, Step(e, now, s.faults)) && !e.Join? && !e.Accept? && !e.Leave? && !e.Pay? && !e.Handle?
    ensures Effect(s, e, now).db == s.db
  {
    if e.Restart? {
      RestartKeepsInv(s, e.rows, now);
    }
  }

  lemma {:induction false} EffectProgresses(s: State, e: Event, now: Time)
    requires Inv(s) && Possible(s, Step(e, now, s.faults))
    ensures Progresses(s.db, Effect(s, e, now).db, Actor(s, e, now), now)
  {
    if e.Join? || e.Accept? || e.Leave? || e.Pay? {
      OperationProgresses(s, e, now);
    } else if e.Handle? {
      LaterKeepsInv(s, now);
      HandleProgresses(s, e.claim, now);
    } else {
      TimerStepKeepsRows(s, e, now);
      StayProgresses(s.db, s.db, None, now);
    }
  }

  lemma {:induction false} NextProgresses(s: State, x: Step)
    requires Inv(s) && Possible(s, x)
    ensures Progresses(s.db, Next(s, x).db, Actor(s, x.event, x.at), x.at)
  {
    ArmedInv(s, x.faults);
    EffectProgresses(Armed(s, x.faults), x.event, x.at);
  }
}
