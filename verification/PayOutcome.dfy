/** What a payment comes to: when it succeeds, and what it changes once. */
module PayOutcome {
  import opened Models
  import opened CacheScripts
  import opened DurableTx
  import opened Service
  import opened Invariants
  import opened Advance
  import opened Payment
  import opened Greedy
  import T = Timers

  predicate PaidAlready(r: Right, order: OrderId) {
    r.status.Used? && r.order == Some(order)
  }

  predicate PayableAt(r: Right, now: Time) {
    r.status.Active? && now < r.expiresAt
  }

  // ---- Which reply ----

  lemma {:induction false} PayRefusals(s: State, token: Token, order: OrderId, now: Time)
    requires !s.down && (token in s.db.rights ==> !s.db.rights[token].status.UnknownRightStatus?)
    requires UseRight(s.db, token, order, now) != TxError(StockDepleted)
    ensures var reply := ProcessPayment(s, token, order, now).1;
      && (reply.Refused? && reply.error != StoreUnavailable ==> ProcessPayment(s, token, order, now).0 == s)
      && (reply == Refused(TokenNotFound) <==> token !in s.db.rights)
      && (token in s.db.rights ==>
            var r := s.db.rights[token];
            && (reply == Refused(TokenUsed) <==> r.status.Used? && r.order != Some(order))
            && (reply == Refused(TokenExpired) <==> r.status.Expired? || (r.status.Active? && now >= r.expiresAt))
            && (reply.Refused? ==> reply.error in {TokenUsed, TokenExpired, StoreUnavailable})
            && (UseRight(s.db, token, order, now).TxResult? <==> PayableAt(r, now) || PaidAlready(r, order)))
  {
  }

  lemma {:induction false} KnownStatus(s: State, token: Token, now: Time)
    requires InvAt(s, now)
    ensures token in s.db.rights ==> !s.db.rights[token].status.UnknownRightStatus?
  {
    if token in s.db.rights {
      assert RightShape(s.db.rights[token], s.product);
    }
  }

  lemma {:induction false} PaidIsHealthy(s: State, token: Token, order: OrderId, now: Time)
    requires !s.down && UseRight(s.db, token, order, now).TxResult?
    ensures var (s1, e) := Paid(s, token, order, now);
      && s1.clock == s.clock && (s.faults.Healthy? ==> e.Finished? && s1.faults.Healthy?)
      && (e.Finished? ==>
            !s1.down
            && ProcessPayment(s, token, order, now) == (AdvanceQueue(s1, now).0, Replied(AdvanceQueue(s1, now).1, Ok)))
      && (ProcessPayment(s, token, order, now).1 == Ok ==> e.Finished?)
  {
  }

  lemma {:induction false} PaidKeepsInv(s: State, token: Token, order: OrderId, now: Time)
    requires InvAt(s, now) && !s.down && now > s.clock && UseRight(s.db, token, order, now).TxResult?
    ensures InvAt(Paid(s, token, order, now).0, now)
  {
    if UseRight(s.db, token, order, now).transitioned {
      SaleKeepsInv(s, token, order, now);
    } else {
      ReplayRecordsNothing(s, token, order, now);
      FaultsDoNotMatter(s, Paid(s, token, order, now).0, now);
    }
  }

  lemma {:induction false} HealthyPaymentSucceeds(s: State, token: Token, order: OrderId, now: Time)
    requires InvAt(s, now) && !s.down && now > s.clock && s.faults.Healthy? && UseRight(s.db, token, order, now).TxResult?
    ensures ProcessPayment(s, token, order, now).1 == Ok
  {
    PaidIsHealthy(s, token, order, now);
    PaidKeepsInv(s, token, order, now);
    HealthyAdvanceFinishes(Paid(s, token, order, now).0, now);
  }

  // Every refusal has its reason, the stock is never one of them, and with a store that works
  // a right that is active and in time, or paid by the same order, is never refused.
  lemma {:induction false} PayRepliesIff(s: State, token: Token, order: OrderId, now: Time)
    requires InvAt(s, now) && !s.down && now > s.clock
    ensures var reply := ProcessPayment(s, token, order, now).1;
      && (reply == Refused(TokenNotFound) <==> token !in s.db.rights)
      && (token in s.db.rights ==>
            var r := s.db.rights[token];
            && (reply == Refused(TokenUsed) <==> r.status.Used? && r.order != Some(order))
            && (reply == Refused(TokenExpired) <==> r.status.Expired? || (r.status.Active? && now >= r.expiresAt))
            && (reply.Refused? ==> reply.error in {TokenUsed, TokenExpired, StoreUnavailable})
            && (s.faults.Healthy? ==> (reply == Ok <==> PayableAt(r, now) || PaidAlready(r, order))))
  {
    KnownStatus(s, token, now);
    StockGuardNeverFires(s, token, order, now);
    PayRefusals(s, token, order, now);
    if s.faults.Healthy? && UseRight(s.db, token, order, now).TxResult? {
      HealthyPaymentSucceeds(s, token, order, now);
    }
  }

  // ---- What changes ----

  // Both stores when the right r is used: its holder is done, the units are gone from the
  // counters and not from the pool, and the order is in the outbox.
  predicate SoldBy(s: State, s1: State, r: Right, order: OrderId, now: Time) {
    && r.user in s.db.members && s.db.stock.Some?
    && s1.db.members == s.db.members[r.user := s.db.members[r.user].Settled(Purchased, now)]
    && s1.cache.members == s.cache.members[r.user := s.db.members[r.user].Settled(Purchased, now)]
    && s1.db.rights == s.db.rights[r.token := r.(status := Used, order := Some(order), usedAt := Some(now))]
    && s1.cache.rights == s1.db.rights
    && s1.db.stock == Some(s.db.stock.value.(count := s.db.stock.value.count - r.quantity))
    && s1.cache.stock == Some(Stock(Counters(s.cache).count - r.quantity, Counters(s.cache).available))
    && s1.db.outbox == s.db.outbox[r.token := OutboxRow(r.token, order, r.product, r.quantity)]
    && s1.cache.queue == s.cache.queue && s1.cache.slots == s.cache.slots - {r.user}
    && s1.cache.timers == T.Timers(s.cache.timers.scheduled - {r.user}, s.cache.timers.processing, s.cache.timers.deadlines)
  }

  lemma {:induction false} SaleIsExact(s: State, m: Membership, token: Token, order: OrderId, now: Time)
    requires Pays(s, m, token, order, now) && UseRight(s.db, token, order, now).TxResult?
    requires s.db.rights[token].user == m.user && s.db.rights[token].quantity == m.quantity
    requires Paid(s, token, order, now).1.Finished?
    ensures SoldBy(s, Paid(s, token, order, now).0, s.db.rights[token], order, now)
  {
    SaleSucceeds(s, m, token, order, now);
    SaleIsCached(s, m, token, order, now);
  }

  // Success is a sale or a replay, and then the queue advances.
  lemma {:induction false} PayIsExact(s: State, token: Token, order: OrderId, now: Time) returns (s1: State)
    requires InvAt(s, now) && !s.down && now > s.clock && ProcessPayment(s, token, order, now).1 == Ok
    ensures token in s.db.rights && (PayableAt(s.db.rights[token], now) || PaidAlready(s.db.rights[token], order))
    ensures if PayableAt(s.db.rights[token], now) then SoldBy(s, s1, s.db.rights[token], order, now)
            else s1 == s.(faults := s1.faults)
    ensures InvAt(s1, now) && ProcessPayment(s, token, order, now).0 == AdvanceQueue(s1, now).0
  {
    KnownStatus(s, token, now);
    StockGuardNeverFires(s, token, order, now);
    PayRefusals(s, token, order, now);
    s1 := Paid(s, token, order, now).0;
    PaidIsHealthy(s, token, order, now);
    PaidKeepsInv(s, token, order, now);
    if PayableAt(s.db.rights[token], now) {
      var m := Holder(s, token, now);
      SaleIsExact(s, m, token, order, now);
    } else {
      ReplayRecordsNothing(s, token, order, now);
    }
  }
}
