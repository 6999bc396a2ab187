/** What a join comes to: when it succeeds, and who then gets what. */
module JoinOutcome {
  import opened Models
  import opened CacheScripts
  import opened DurableTx
  import opened Service
  import opened Invariants
  import opened Moves
  import opened Advance
  import opened Joining
  import opened Replies
  import L = Ledger
  import T = Timers

  predicate TakesPart(d: Durable, u: UserId) {
    u in d.members && d.members[u].IsLive()
  }

  // The pool that a newcomer meets: before the first contact it is AvitoBackend's answer.
  function Pool(s: State): Stock {
    if s.db.stock.None? then Stock(s.cfg.initialStock, s.cfg.initialStock) else Counters(s.cache)
  }

  // ---- Which reply ----

  lemma {:induction false} TakesPartIff(s: State, u: UserId)
    requires Inv(s) && !s.down
    ensures TakesPart(s.db, u) <==> Idempotent(s.cache, u).Some?
    ensures TakesPart(s.db, u) ==> Idempotent(s.cache, u) == Some(Existing(s.db.members[u]))
    ensures !TakesPart(s.db, u) ==> u !in s.cache.slots
  {
    if u in s.db.members {
      assert MemberShape(s.db.members[u], s.db.rights, s.cfg);
    }
    if TakesPart(s.db, u) {
      assert s.cache.members[u] == s.db.members[u];
    } else {
      NobodyHasSlot(s, u);
    }
  }

  // Every refusal has its reason, and with a store that works there is no other.
  lemma {:induction false} JoinRefusals(s: State, u: UserId, quantity: int, others: nat, fetched: Option<nat>, now: Time)
    requires s.faults.Healthy?
    ensures var reply, inside := JoinQueue(s, u, quantity, others, fetched, now).1, Idempotent(s.cache, u).Some?;
      && (u !in s.cache.slots && quantity > 0 && !inside && others < s.cfg.slotLimit ==>
            if fetched.None? then reply == Refused(StoreUnavailable) else reply.Ok? || reply.Granted?)
  {
  }

  lemma {:induction false} JoinRepliesIff(s: State, u: UserId, quantity: int, others: nat, fetched: Option<nat>, now: Time)
    requires Inv(s) && !s.down
    ensures var reply, inside, room := JoinQueue(s, u, quantity, others, fetched, now).1, TakesPart(s.db, u), others < s.cfg.slotLimit;
      && (reply == Refused(InvalidQuantity) <==> quantity <= 0)
      && (reply.Existing? <==> quantity > 0 && inside)
      && (reply.Existing? ==> reply.member == s.db.members[u])
      && (reply == Refused(QueueLimitReached) <==> quantity > 0 && !inside && !room)
      && (reply.Refused? ==> reply.error in {InvalidQuantity, QueueLimitReached, StoreUnavailable})
      && (s.faults.Healthy? ==>
            && (reply == Refused(StoreUnavailable) <==> quantity > 0 && !inside && room && fetched.None?)
            && (reply.Ok? || reply.Granted? <==> quantity > 0 && !inside && room && fetched.Some?))
  {
    TakesPartIff(s, u);
    if s.faults.Healthy? {
      JoinRefusals(s, u, quantity, others, fetched, now);
    }
  }

  // ---- What the newcomer gets ----

  // A right if nobody waits and the pool covers the request, an offer of all that is left if
  // it covers a part, a place in the queue otherwise; nothing any more if all is sold.
  predicate Deserves(status: MembershipStatus, pool: Stock, nobodyWaits: bool, quantity: int) {
    && (status.RightActive? <==> nobodyWaits && quantity <= pool.available)
    && (status.OfferPending? <==> nobodyWaits && 0 < pool.available < quantity)
    && (status.SoldOut? <==> pool.count == 0)
    && (status.Queued? <==> pool.count > 0 && (!nobodyWaits || pool.available == 0))
  }

  // The row that goes with a status.
  function Newcomers(s: State, u: UserId, status: MembershipStatus, quantity: int, now: Time): Membership {
    Membership(s.product, u, status, quantity,
      if status.OfferPending? then Some(Pool(s).available) else None,
      if status.RightActive? then Some(s.nextToken) else None,
      if status.RightActive? then Some(now + s.cfg.paymentTtl)
      else if status.OfferPending? then Some(now + s.cfg.offerTtl)
      else None,
      now, now)
  }

  function NewcomersRight(s: State, u: UserId, quantity: int, now: Time): Right {
    Right(s.nextToken, u, s.product, quantity, Active, None, now, now + s.cfg.paymentTtl, None)
  }

  // The deadline of the newcomer's timer; whoever waits has a whole timeout.
  function NewcomersTimer(s: State, m: Membership, now: Time): Time {
    if m.expiresAt.Some? then m.expiresAt.value else now + s.cfg.presenceTimeout
  }

  // Both stores after the join, seen from before it.
  predicate Joined(s: State, s': State, m: Membership, now: Time) {
    && s'.db.members == s.db.members[m.user := m] && s'.cache.members == s.cache.members[m.user := m]
    && s'.db.rights == (if m.status.RightActive?
                        then s.db.rights[s.nextToken := NewcomersRight(s, m.user, m.quantity, now)] else s.db.rights)
    && s'.cache.rights == s'.db.rights && s'.db.outbox == s.db.outbox
    && s'.db.stock == Some(if s.db.stock.Some? then s.db.stock.value
                           else StockRow(s.product, s.cfg.initialStock, s.cfg.initialStock))
    && s'.cache.stock == Some(Stock(Pool(s).count, Pool(s).available - m.Units()))
    && s'.cache.queue == s.cache.queue + (if m.status.Queued? then [Entry(s.cache.lastScore + 1, m.user)] else [])
    && s'.cache.slots == (if m.status.SoldOut? then s.cache.slots else s.cache.slots + {m.user})
    && s'.cache.timers == (if m.status.SoldOut? then s.cache.timers
                           else T.Add(s.cache.timers, m.user, Seconds(NewcomersTimer(s, m, now))))
  }

  predicate Ready(s: State, u: UserId) {
    && Newcomer(s, u) && HeldBy(s.db.members, u) == 0
    && 0 <= Counters(s.cache).available <= Counters(s.cache).count
  }

  lemma {:induction false} EntryDeserves(s: State, u: UserId, quantity: int, now: Time)
    requires Ready(s, u) && quantity > 0
    ensures var m := EntryRow(s, u, quantity, now);
      && Deserves(m.status, Counters(s.cache), s.cache.queue == [], quantity)
      && m == Newcomers(s, u, m.status, quantity, now)
  {
  }

  lemma {:induction false} EntrysRight(s: State, u: UserId, quantity: int, now: Time)
    requires Ready(s, u) && quantity > 0
    ensures var m := EntryRow(s, u, quantity, now);
      EntryRight(s, u, quantity, now)
      == if m.status.RightActive? then Some(NewcomersRight(s, u, quantity, now)) else None
    ensures JoinReply(s, u, quantity, now)
         == if EntryRow(s, u, quantity, now).status.RightActive? then Granted(NewcomersRight(s, u, quantity, now)) else Ok
  {
  }

  lemma {:induction false} TimerOfWaiter(s: State, u: UserId, quantity: int, now: Time)
    requires Ready(s, u) && quantity > 0 && EntryRow(s, u, quantity, now).status.Queued?
    requires Admit(WithSlot(s, u), u, quantity, now).1.Finished?
    ensures Admit(WithSlot(s, u), u, quantity, now).0.cache.timers
         == T.Add(s.cache.timers, u, Seconds(now + s.cfg.presenceTimeout))
  {
    WaitUnfolds(s, u, quantity, now);
  }

  lemma {:induction false} TimerOfLoser(s: State, u: UserId, quantity: int, now: Time)
    requires Ready(s, u) && quantity > 0 && EntryRow(s, u, quantity, now).status.SoldOut?
    requires Admit(WithSlot(s, u), u, quantity, now).1.Finished?
    ensures var s' := Admit(WithSlot(s, u), u, quantity, now).0; s'.cache.timers == s.cache.timers
  {
  }

  lemma {:induction false} RowsLeaveOrders(s: State, u: UserId, quantity: int, now: Time)
    ensures var s' := Admit(s, u, quantity, now).0; s'.db.stock == s.db.stock && s'.db.outbox == s.db.outbox
  {
    L.AdmitLeavesLedger(s, u, quantity, now);
  }

  lemma {:induction false} StepIsJoined(s: State, s': State, m: Membership, now: Time)
    requires Ready(s, m.user) && (m.IsTimed() ==> m.expiresAt.Some?) && (m.status.Queued? ==> m.expiresAt.None?)
    requires m.status.RightActive? || m.status.OfferPending? || m.status.Queued? || m.status.SoldOut?
    requires Stepped(s, s', Finished, m, m,
      if m.status.RightActive? then Some(NewcomersRight(s, m.user, m.quantity, now)) else None)
    requires s'.db.stock == s.db.stock && s'.db.outbox == s.db.outbox
    requires m.status.Queued? ==> s'.cache.timers == T.Add(s.cache.timers, m.user, Seconds(now + s.cfg.presenceTimeout))
    requires m.status.SoldOut? ==> s'.cache.timers == s.cache.timers
    ensures Joined(s, s', m, now)
  {
    assert s.cache.slots - {m.user} == s.cache.slots;
  }

  lemma {:induction false} AdmissionIsExact(s: State, u: UserId, quantity: int, now: Time)
    requires Ready(s, u) && quantity > 0 && Admit(WithSlot(s, u), u, quantity, now).1.Finished?
    ensures Joined(s, Admit(WithSlot(s, u), u, quantity, now).0, EntryRow(s, u, quantity, now), now)
  {
    AdmitIsStep(s, u, quantity, now);
    EntryDeserves(s, u, quantity, now);
    EntrysRight(s, u, quantity, now);
    RowsLeaveOrders(WithSlot(s, u), u, quantity, now);
    var m := EntryRow(s, u, quantity, now);
    if m.status.Queued? {
      TimerOfWaiter(s, u, quantity, now);
    } else if m.status.SoldOut? {
      TimerOfLoser(s, u, quantity, now);
    }
    StepIsJoined(s, Admit(WithSlot(s, u), u, quantity, now).0, m, now);
  }

  // First contact only fetches the pool.
  predicate Filled(s: State, s1: State) {
    && s1.cache == s.cache.(stock := Some(Pool(s))) && s1.nextToken == s.nextToken && s1.cfg == s.cfg && s1.product == s.product
    && s1.db == s.db.(stock := Some(if s.db.stock.Some? then s.db.stock.value
                                    else StockRow(s.product, s.cfg.initialStock, s.cfg.initialStock)))
  }

  lemma {:induction false} TouchFillsPool(s: State, total: nat)
    requires Inv(s) && !s.down && Touch(s, total).1.Finished?
    requires s.db.stock.None? ==> total == s.cfg.initialStock
    ensures Filled(s, Touch(s, total).0)
  {
    if s.db.stock.None? {
      FirstTouch(s, total);
    } else {
      LaterTouch(s, total);
    }
  }

  lemma {:induction false} TouchedIsReady(s: State, u: UserId, total: nat, now: Time)
    requires Inv(s) && !s.down && now > s.clock && Idempotent(s.cache, u).None?
    requires (s.db.stock.None? ==> total == s.cfg.initialStock) && Touch(s, total).1.Finished?
    ensures Ready(Touch(s, total).0, u)
  {
    var s1 := Touch(s, total).0;
    TouchKeepsInv(s, total);
    TouchThenSlot(s, u, total);
    LaterKeepsInv(s1, now);
    IsNewcomer(s1, u, now);
    HeldBounds(s1.db, s1.product, s1.cfg, now, u);
  }

  lemma {:induction false} SeenFromBefore(s: State, s1: State, s': State, m: Membership, now: Time)
    requires Joined(s1, s', m, now) && s1.db.stock.Some? && Filled(s, s1)
    ensures Joined(s, s', m, now)
  {
  }

  lemma {:induction false} EntryIsExact(s: State, s1: State, u: UserId, quantity: int, now: Time)
    requires Ready(s1, u) && Filled(s, s1) && quantity > 0 && Admit(WithSlot(s1, u), u, quantity, now).1.Finished?
    ensures var (s', m) := (Admit(WithSlot(s1, u), u, quantity, now).0, EntryRow(s1, u, quantity, now));
      && Deserves(m.status, Pool(s), s.cache.queue == [], quantity)
      && m == Newcomers(s, u, m.status, quantity, now)
      && Joined(s, s', m, now)
      && JoinReply(s1, u, quantity, now) == (if m.status.RightActive? then Granted(NewcomersRight(s, u, quantity, now)) else Ok)
  {
    EntryDeserves(s1, u, quantity, now);
    EntrysRight(s1, u, quantity, now);
    AdmissionIsExact(s1, u, quantity, now);
    SeenFromBefore(s, s1, Admit(WithSlot(s1, u), u, quantity, now).0, EntryRow(s1, u, quantity, now), now);
  }

  // A join that is not refused: exactly what the newcomer gets, by the pool and the queue
  // that it meets, and what becomes of both stores.
  lemma {:induction false} JoinIsExact(s: State, u: UserId, quantity: int, others: nat, fetched: Option<nat>, now: Time) returns (m: Membership)
    requires Inv(s) && !s.down && now > s.clock
    requires s.db.stock.None? && fetched.Some? ==> fetched.value == s.cfg.initialStock
    requires var reply := JoinQueue(s, u, quantity, others, fetched, now).1; reply.Ok? || reply.Granted?
    ensures var (s', reply) := JoinQueue(s, u, quantity, others, fetched, now);
      && Deserves(m.status, Pool(s), s.cache.queue == [], quantity)
      && m == Newcomers(s, u, m.status, quantity, now)
      && Joined(s, s', m, now)
      && reply == (if m.status.RightActive? then Granted(NewcomersRight(s, u, quantity, now)) else Ok)
  {
    if Idempotent(s.cache, u).None? {
      NobodyHasSlot(s, u);
    }
    JoinAnswers(s, u, quantity, others, fetched, now);
    TouchFillsPool(s, fetched.value);
    TouchedIsReady(s, u, fetched.value, now);
    EntryIsExact(s, Touch(s, fetched.value).0, u, quantity, now);
    m := EntryRow(Touch(s, fetched.value).0, u, quantity, now);
  }
}
