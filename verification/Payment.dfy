/** ProcessPayment keeps the invariants, sells each right once and replays as a no-op. */
module Payment {
  import opened Models
  import opened CacheScripts
  import opened DurableTx
  import opened Service
  import opened Invariants
  import opened Moves
  import opened Advance
  import opened Operations

  function UsedRight(s: State, token: Token, order: OrderId, now: Time): Right
    requires token in s.db.rights
  {
    s.db.rights[token].(status := Used, order := Some(order), usedAt := Some(now))
  }

  // The membership that holds an active right.
  lemma {:induction false} Holder(s: State, token: Token, now: Time) returns (m: Membership)
    requires InvAt(s, now) && !s.down
    requires token in s.db.rights && s.db.rights[token].status.Active?
    ensures Cached(s, m) && m.status.RightActive? && m.token == Some(token)
    ensures m.user == s.db.rights[token].user && m.quantity == s.db.rights[token].quantity > 0
    ensures s.db.rights[token].token == token && token !in s.db.outbox
    ensures m.quantity == HeldBy(s.db.members, m.user) <= Held(s.db.members) <= s.db.stock.value.count
  {
    m := s.db.members[s.db.rights[token].user];
    assert MemberShape(m, s.db.rights, s.cfg);
    Lookup(s, m.user, now);
  }

  // An active, unexpired right is never refused for want of stock.
  lemma {:induction false} StockGuardNeverFires(s: State, token: Token, order: OrderId, now: Time)
    requires InvAt(s, now) && !s.down
    ensures UseRight(s.db, token, order, now) != TxError(StockDepleted)
    ensures UseRight(s.db, token, order, now) != TxError(InvalidStatus)
  {
    if token in s.db.rights && s.db.rights[token].status.Active? {
      var m := Holder(s, token, now);
    }
  }

  // The state between the transaction and the advance.
  function Paid(s: State, token: Token, order: OrderId, now: Time): (State, Ended)
    requires UseRight(s.db, token, order, now).TxResult?
  {
    var tx := UseRight(s.db, token, order, now);
    var w := Persist(s, tx.db);
    if w.1.Finished? then (RecordPayment(w.0, tx.right, tx.transitioned, now), Finished) else w
  }

  predicate Sells(s: State, token: Token, order: OrderId, now: Time) {
    token in s.db.rights && s.db.rights[token].status.Active? && now < s.db.rights[token].expiresAt
  }

  // What the transaction writes for the holder of an active right that the stock covers.
  predicate SoldTo(s: State, s': State, m: Membership, token: Token, order: OrderId, now: Time)
    requires token in s.db.rights && s.db.stock.Some?
  {
    var r := UsedRight(s, token, order, now);
    && RowsMoved(s.db, s'.db, m.Settled(Purchased, now), Some(r))
    && s'.db.stock == Some(s.db.stock.value.(count := s.db.stock.value.count - m.quantity))
    && s'.db.outbox == s.db.outbox[token := OutboxRow(token, order, r.product, r.quantity)]
  }

  predicate Pays(s: State, m: Membership, token: Token, order: OrderId, now: Time) {
    && Cached(s, m) && m.status.RightActive? && m.token == Some(token)
    && Sells(s, token, order, now) && s.db.rights[token].token == token
    && s.db.stock.value.count >= m.quantity
  }

  lemma {:induction false} SaleSucceeds(s: State, m: Membership, token: Token, order: OrderId, now: Time)
    requires Pays(s, m, token, order, now)
    ensures UseRight(s.db, token, order, now).TxResult? && UseRight(s.db, token, order, now).transitioned
    ensures UseRight(s.db, token, order, now).right == UsedRight(s, token, order, now)
    ensures SoldTo(s, s.(db := UseRight(s.db, token, order, now).db), m, token, order, now)
  {
  }

  lemma {:induction false} SaleIsCached(s: State, m: Membership, token: Token, order: OrderId, now: Time)
    requires Pays(s, m, token, order, now) && UseRight(s.db, token, order, now).TxResult?
    requires Paid(s, token, order, now).1.Finished?
    ensures var s' := Paid(s, token, order, now).0;
      && Moved(s, s', m.Settled(Purchased, now), m.Settled(Purchased, now), Some(UsedRight(s, token, order, now)))
      && s'.cache.stock == Some(Stock(Counters(s.cache).count - m.quantity, Counters(s.cache).available))
      && s'.db == UseRight(s.db, token, order, now).db
  {
    SaleSucceeds(s, m, token, order, now);
    assert s.cache.index - {m.user} == s.cache.index;
  }

  lemma {:induction false} PaymentIsMove(s: State, m: Membership, token: Token, order: OrderId, now: Time)
    requires Cached(s, m) && m.status.RightActive? && m.token == Some(token)
    requires Sells(s, token, order, now) && s.db.rights[token].token == token
    requires s.db.stock.value.count >= m.quantity
    ensures UseRight(s.db, token, order, now).TxResult? && UseRight(s.db, token, order, now).transitioned
    ensures var (s', e) := Paid(s, token, order, now);
      var row, r := m.Settled(Purchased, now), UsedRight(s, token, order, now);
      match e
      case Finished =>
        Moved(s, s', row, row, Some(r)) && SoldTo(s, s', m, token, order, now)
        && s'.cache.stock == Some(Stock(Counters(s.cache).count - m.quantity, Counters(s.cache).available))
      case Died => Written(s, s') && SoldTo(s, s', m, token, order, now)
      case StoreFailed => s' == s
  {
    SaleSucceeds(s, m, token, order, now);
    if Paid(s, token, order, now).1.Finished? {
      SaleIsCached(s, m, token, order, now);
    }
  }

  lemma {:induction false} SaleBalances(s: State, s': State, m: Membership, token: Token, order: OrderId, now: Time)
    requires Balanced(s) && s.db.stock.Some? && s'.product == s.product && s'.cfg == s.cfg
    requires token in s.db.rights && s.db.rights[token].status.Active? && s.db.rights[token].token == token
    requires m.quantity == s.db.rights[token].quantity && token !in s.db.outbox
    requires m.quantity == HeldBy(s.db.members, m.user) <= Held(s.db.members)
    requires RowsMoved(s.db, s'.db, m.Settled(Purchased, now), Some(UsedRight(s, token, order, now)))
    requires s'.db.stock == Some(s.db.stock.value.(count := s.db.stock.value.count - m.quantity))
    requires s'.db.outbox
      == s.db.outbox[token := OutboxRow(token, order, s.db.rights[token].product, s.db.rights[token].quantity)]
    ensures OutboxRows(s'.db) && StockRows(s'.db, s.product, s.cfg.initialStock)
    ensures s'.cache.stock == Some(Stock(Counters(s.cache).count - m.quantity, Counters(s.cache).available)) ==>
              Balanced(s')
  {
    HeldAfter(s.db.members, m.user, m.Settled(Purchased, now));
    SoldAfter(s.db.rights, UsedRight(s, token, order, now));
    OrderIsRecorded(s.db, s'.db, UsedRight(s, token, order, now), order);
  }

  lemma {:induction false} OrderIsRecorded(d: Durable, d': Durable, r: Right, order: OrderId)
    requires OutboxRows(d) && r.status.Used? && r.order == Some(order) && r.token !in d.outbox
    requires d'.rights == d.rights[r.token := r] && d'.outbox == d.outbox[r.token := OutboxRow(r.token, order, r.product, r.quantity)]
    requires r.token in d.rights && d.rights[r.token].status.Active?
    ensures OutboxRows(d')
  {
  }

  lemma {:induction false} SaleFits(s: State, s': State, m: Membership, token: Token, order: OrderId, now: Time)
    requires StoreInv(s, now) && s.clock < now
    requires token in s.db.rights && s.db.rights[token].status.Active? && s.db.rights[token].token == token
    requires m.user in s.db.members && s.db.members[m.user] == m && m.token == Some(token)
    requires m.user == s.db.rights[token].user
    requires RowsMoved(s.db, s'.db, m.Settled(Purchased, now), Some(UsedRight(s, token, order, now)))
    requires s'.nextToken >= s.nextToken
    ensures FitsRows(s, s', m.Settled(Purchased, now), Some(UsedRight(s, token, order, now)), now)
  {
  }

  lemma {:induction false} SaleKeepsInv(s: State, token: Token, order: OrderId, now: Time)
    requires InvAt(s, now) && !s.down && now > s.clock
    requires Sells(s, token, order, now)
    ensures UseRight(s.db, token, order, now).TxResult? && UseRight(s.db, token, order, now).transitioned
    ensures InvAt(Paid(s, token, order, now).0, now)
  {
    var m := Holder(s, token, now);
    PaymentIsMove(s, m, token, order, now);
    var (s', e) := Paid(s, token, order, now);
    if !e.StoreFailed? {
      SaleFits(s, s', m, token, order, now);
      SaleBalances(s, s', m, token, order, now);
      if e.Died? {
        DeathKeepsInv(s, s', m.Settled(Purchased, now), Some(UsedRight(s, token, order, now)), now);
      } else {
        MoveKeepsInv(s, s', m.Settled(Purchased, now), m.Settled(Purchased, now),
          Some(UsedRight(s, token, order, now)), now);
      }
    }
  }

  // ---- Replays ----

  // A right already used leaves nothing for the cache to change.
  lemma {:induction false} RecordedTwice(s: State, token: Token, now: Time)
    requires InvAt(s, now) && !s.down
    requires token in s.db.rights && s.db.rights[token].status.Used?
    ensures MarkPurchased(SetRight(s.cache, s.db.rights[token]), s.db.rights[token], now) == s.cache
  {
    var r := s.db.rights[token];
    assert SetRight(s.cache, r) == s.cache by {
      assert s.cache.rights[token := r] == s.cache.rights;
    }
    if r.user in s.cache.members && s.cache.members[r.user].status.RightActive? {
      assert MemberShape(s.db.members[r.user], s.db.rights, s.cfg);
    }
  }

  lemma {:induction false} PaymentUnfolds(s: State, token: Token, order: OrderId, now: Time)
    requires !s.down
    ensures var tx := UseRight(s.db, token, order, now);
      && (tx.TxError? ==> ProcessPayment(s, token, order, now) == (s, Refused(tx.error)))
      && (tx.TxResult? ==>
            var s1 := Paid(s, token, order, now).0;
            s1.clock == s.clock && AdvancedOrNot(s1, ProcessPayment(s, token, order, now).0, now))
  {
  }

  predicate Replays(s: State, token: Token, order: OrderId) {
    token in s.db.rights && s.db.rights[token].status.Used? && s.db.rights[token].order == Some(order)
  }

  lemma {:induction false} ReplayIsStutter(s: State, token: Token, order: OrderId, now: Time)
    requires Replays(s, token, order)
    requires MarkPurchased(SetRight(s.cache, s.db.rights[token]), s.db.rights[token], now) == s.cache
    ensures UseRight(s.db, token, order, now) == TxResult(s.db, s.db.rights[token], false)
    ensures var s1 := Paid(s, token, order, now).0;
      s1 == s.(faults := s1.faults, down := s1.down)
  {
  }

  lemma {:induction false} ReplayRecordsNothing(s: State, token: Token, order: OrderId, now: Time)
    requires InvAt(s, now) && !s.down && Replays(s, token, order)
    ensures UseRight(s.db, token, order, now) == TxResult(s.db, s.db.rights[token], false)
    ensures var s1 := Paid(s, token, order, now).0;
      s1 == s.(faults := s1.faults, down := s1.down)
  {
    RecordedTwice(s, token, now);
    ReplayIsStutter(s, token, order, now);
  }

  lemma {:induction false} PaymentKeepsInv(s: State, token: Token, order: OrderId, now: Time)
    requires InvAt(s, now) && !s.down && now > s.clock
    ensures InvAt(ProcessPayment(s, token, order, now).0, now)
  {
    PaymentUnfolds(s, token, order, now);
    var tx := UseRight(s.db, token, order, now);
    if tx.TxResult? {
      if tx.transitioned {
        SaleKeepsInv(s, token, order, now);
      } else {
        ReplayRecordsNothing(s, token, order, now);
        FaultsDoNotMatter(s, Paid(s, token, order, now).0, now);
      }
      AdvanceOrNotKeepsInv(Paid(s, token, order, now).0, ProcessPayment(s, token, order, now).0, now);
    }
  }
}
