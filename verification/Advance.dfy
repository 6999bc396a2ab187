/** AdvanceQueue keeps the invariants, whatever write fails or kills the process. */
module Advance {
  import opened Models
  import opened CacheScripts
  import opened DurableTx
  import opened Service
  import opened Invariants
  import opened Moves

  // ---- The pool under one move ----

  predicate PoolMoved(s: State, s': State, m: Membership, r: Option<Right>) {
    && s.db.stock.Some? && s'.db.stock == s.db.stock && s'.db.outbox == s.db.outbox
    && (r.Some? ==> !r.value.status.Used?)
    && (r.Some? && r.value.token in s.db.rights ==> !s.db.rights[r.value.token].status.Used?)
    && s'.product == s.product && s'.cfg == s.cfg
  }

  lemma {:induction false} StockRowsMoved(s: State, s': State, m: Membership, r: Option<Right>)
    requires Balanced(s) && RowsMoved(s.db, s'.db, m, r) && PoolMoved(s, s', m, r)
    requires Counters(s.cache).available + HeldBy(s.db.members, m.user) - m.Units() >= 0
    ensures OutboxRows(s'.db) && StockRows(s'.db, s.product, s.cfg.initialStock)
    ensures Held(s'.db.members) == Held(s.db.members) - HeldBy(s.db.members, m.user) + m.Units()
  {
    HeldAfter(s.db.members, m.user, m);
    if r.Some? {
      SoldAfter(s.db.rights, r.value);
    }
  }

  lemma {:induction false} BalancedMoved(s: State, s': State, m: Membership, r: Option<Right>)
    requires Balanced(s) && RowsMoved(s.db, s'.db, m, r) && PoolMoved(s, s', m, r)
    requires Counters(s.cache).available + HeldBy(s.db.members, m.user) - m.Units() >= 0
    requires s'.cache.stock == Some(Stock(Counters(s.cache).count,
               Counters(s.cache).available + HeldBy(s.db.members, m.user) - m.Units()))
    ensures Balanced(s')
  {
    StockRowsMoved(s, s', m, r);
  }

  // A write that the process does not survive.
  predicate Written(s: State, s': State) {
    && s'.down && s'.product == s.product && s'.cfg == s.cfg && s'.clock == s.clock
    && s'.nextToken >= s.nextToken
    && s'.cache.members.Keys <= s.db.members.Keys && s'.cache.rights.Keys <= s.db.rights.Keys
  }

  lemma {:induction false} DeathKeepsInv(s: State, s': State, m: Membership, r: Option<Right>, now: Time)
    requires InvAt(s, now) && !s.down && Written(s, s')
    requires RowsMoved(s.db, s'.db, m, r) && FitsRows(s, s', m, r, now)
    requires s'.db.stock.Some? && OutboxRows(s'.db) && StockRows(s'.db, s.product, s.cfg.initialStock)
    ensures InvAt(s', now)
  {
    MemberRowsMoved(s.db, s'.db, m, r, s.product, s.cfg, now, now);
    RightRowsMoved(s.db, s'.db, m, r, s.product, s.nextToken, s'.nextToken);
    QueueStampsMoved(s.db.members, m);
  }

  // A process that dies without having written anything.
  lemma {:induction false} FaultsDoNotMatter(s: State, s': State, now: Time)
    requires InvAt(s, now) && !s.down && s' == s.(faults := s'.faults, down := s'.down)
    ensures InvAt(s', now)
  {
    if s.cache.queue != [] {
      assert s.cache.queue[0].user in Users(s.cache.queue);
    }
  }

  // ---- The head of the queue ----

  lemma {:induction false} NoActiveRight(d: Durable, product: ProductId, nextToken: Token, u: UserId)
    requires RightRows(d, product, nextToken)
    requires u !in d.members || d.members[u].token.None?
    ensures forall t :: t in d.rights && d.rights[t].user == u ==> !d.rights[t].status.Active?
  {
  }

  // What one iteration of the loop does, from before the pop.
  function Iterate(s: State, now: Time): (State, Ended)
    requires Decides(PopAndAllocate(s.cache).1)
  {
    ApplyAdvanceStep(s.(cache := PopAndAllocate(s.cache).0), PopAndAllocate(s.cache).1, now)
  }

  // The head of the queue as the pop sees it, without the rest of the invariants.
  predicate Head(s: State, m: Membership) {
    && s.cache.queue != [] && s.cache.queue[0].user == m.user
    && m.user in s.cache.members && s.cache.members[m.user] == m
    && m.user != NO_NAME && m.status.Queued? && m.product == s.product && m.quantity > 0
    && m.available.None? && m.token.None? && m.expiresAt.None?
    && s.cache.stock.Some? && s.db.stock.Some? && s.cache.rights == s.db.rights
    && s.cache.members.Keys == s.db.members.Keys && s.db.members[m.user] == m
    && s.nextToken !in s.db.rights && !s.down
    && Place(Without(s.cache.queue, m.user), s.cache.queue[0]) == s.cache.queue && m.user in s.cache.index
  }

  function RightFor(s: State, m: Membership, now: Time): Right {
    NewRight(s, m, m.quantity, now)
  }

  function RowFor(s: State, m: Membership, now: Time): Membership {
    Holding(m.(updatedAt := now), RightFor(s, m, now))
  }

  // How one durable write with its cache update, its rollback or its crash may end.
  predicate Stepped(s: State, s': State, e: Ended, m: Membership, c: Membership, r: Option<Right>) {
    match e
    case Finished =>
      Moved(s, s', m, c, r) && PoolMoved(s, s', m, r)
      && s'.cache.stock == Some(Stock(Counters(s.cache).count,
           Counters(s.cache).available + HeldBy(s.db.members, m.user) - m.Units()))
    case Died =>
      Written(s, s') && RowsMoved(s.db, s'.db, m, r) && PoolMoved(s, s', m, r)
    case StoreFailed =>
      s' == s.(nextToken := s'.nextToken) && s'.nextToken >= s.nextToken
  }

  lemma {:induction false} RightIsStep(s: State, m: Membership, now: Time)
    requires Head(s, m) && Counters(s.cache).count != 0 && Counters(s.cache).available >= m.quantity
    ensures Decides(PopAndAllocate(s.cache).1)
    ensures var (s', e) := Iterate(s, now);
      Stepped(s, s', e, RowFor(s, m, now), RowFor(s, m, now), Some(RightFor(s, m, now))) && s'.nextToken == s.nextToken + 1
  {
    var p := PopAndAllocate(s.cache).1;
    assert p.entry == s.cache.queue[0] && p.granted == m.quantity;
    if Iterate(s, now).1.Finished? {
      RightIsCached(s, m, now);
    } else {
      assert s.cache.index - {m.user} + {m.user} == s.cache.index;
    }
  }

  lemma {:induction false} RightIsCached(s: State, m: Membership, now: Time)
    requires Head(s, m) && Counters(s.cache).count != 0 && Counters(s.cache).available >= m.quantity
    requires Decides(PopAndAllocate(s.cache).1) && Iterate(s, now).1.Finished?
    ensures var s' := Iterate(s, now).0;
      && Stepped(s, s', Finished, RowFor(s, m, now), RowFor(s, m, now), Some(RightFor(s, m, now)))
      && s'.nextToken == s.nextToken + 1
  {
    var p := PopAndAllocate(s.cache).1;
    assert p.entry == s.cache.queue[0] && p.granted == m.quantity;
  }

  lemma {:induction false} HeadIsQueued(s: State, now: Time) returns (m: Membership)
    requires InvAt(s, now) && !s.down && s.cache.queue != []
    ensures Head(s, m) && MemberShape(m, s.db.rights, s.cfg)
    ensures 0 <= Counters(s.cache).available <= Counters(s.cache).count
  {
    var u := s.cache.queue[0].user;
    assert u in Users(s.cache.queue);
    m := s.cache.members[u];
    HeldBounds(s.db, s.product, s.cfg, now, u);
    RequeueUndoesPop(s.cache);
  }

  // A right issued to a user who holds none.
  lemma {:induction false} IssueFits(s: State, s': State, m: Membership, r: Right, now: Time)
    requires StoreInv(s, now) && s.clock < now && s.cfg.Valid()
    requires m.user !in s.db.members || s.db.members[m.user].token.None?
    requires RowsMoved(s.db, s'.db, m, Some(r))
    requires m.user != NO_NAME && r.token == s.nextToken < s'.nextToken && r.token != NO_NAME && RightShape(r, s.product) && r.status.Active?
    requires m.product == s.product && m.updatedAt == now && m.status.RightActive? && m.quantity == r.quantity
    requires m.available.None? && m.token == Some(r.token) && m.expiresAt == Some(r.expiresAt)
    requires r.expiresAt == now + s.cfg.paymentTtl
    ensures FitsRows(s, s', m, Some(r), now)
  {
    NoActiveRight(s.db, s.product, s.nextToken, m.user);
  }

  lemma {:induction false} StepKeepsInv(s: State, s': State, e: Ended, m: Membership, c: Membership, r: Option<Right>, now: Time)
    requires InvAt(s, now) && !s.down
    requires Stepped(s, s', e, m, c, r)
    requires !e.StoreFailed? ==> FitsRows(s, s', m, r, now)
    requires Counters(s.cache).available + HeldBy(s.db.members, m.user) - m.Units() >= 0
    ensures InvAt(s', now)
  {
    match e
    case StoreFailed =>
    case Died =>
      StockRowsMoved(s, s', m, r);
      DeathKeepsInv(s, s', m, r, now);
    case Finished =>
      BalancedMoved(s, s', m, r);
      MoveKeepsInv(s, s', m, c, r, now);
  }

  lemma {:induction false} ServesRight(s: State, m: Membership, now: Time)
    requires InvAt(s, now) && !s.down && now > s.clock
    requires Head(s, m) && Counters(s.cache).count != 0 && Counters(s.cache).available >= m.quantity
    ensures Decides(PopAndAllocate(s.cache).1)
    ensures InvAt(Iterate(s, now).0, now)
  {
    RightIsStep(s, m, now);
    var (s', e) := Iterate(s, now);
    var row, r := RowFor(s, m, now), RightFor(s, m, now);
    if !e.StoreFailed? {
      IssueFits(s, s', row, r, now);
    }
    StepKeepsInv(s, s', e, row, row, Some(r), now);
  }

  function OfferRowFor(s: State, m: Membership, now: Time): Membership {
    Offered(m.(updatedAt := now), Counters(s.cache).available, now + s.cfg.offerTtl)
  }

  lemma {:induction false} OfferIsStep(s: State, m: Membership, now: Time)
    requires Head(s, m) && Counters(s.cache).count != 0 && 0 < Counters(s.cache).available < m.quantity
    ensures Decides(PopAndAllocate(s.cache).1)
    ensures var (s', e) := Iterate(s, now); Stepped(s, s', e, OfferRowFor(s, m, now), OfferRowFor(s, m, now), None)
  {
    var p := PopAndAllocate(s.cache).1;
    assert p.entry == s.cache.queue[0] && p.offered == Counters(s.cache).available;
    assert s.cache.index - {m.user} + {m.user} == s.cache.index;
  }

  function SoldOutRowFor(m: Membership, now: Time): Membership {
    m.(status := SoldOut, updatedAt := now)
  }

  lemma {:induction false} SoldOutIsStep(s: State, m: Membership, now: Time)
    requires Head(s, m) && Counters(s.cache).count == 0
    ensures Decides(PopAndAllocate(s.cache).1)
    ensures var (s', e) := Iterate(s, now); Stepped(s, s', e, SoldOutRowFor(m, now), SoldOutRowFor(m, now), None)
  {
    var p := PopAndAllocate(s.cache).1;
    assert p.entry == s.cache.queue[0] && p.granted == p.offered == 0;
    assert s.cache.index - {m.user} + {m.user} == s.cache.index;
    assert s.cache.stock == Some(Stock(Counters(s.cache).count, Counters(s.cache).available));
  }

  lemma {:induction false} RowFits(s: State, s': State, m: Membership, now: Time)
    requires StoreInv(s, now) && s.clock < now
    requires m.user !in s.db.members || s.db.members[m.user].token.None?
    requires RowsMoved(s.db, s'.db, m, None)
    requires m.user != NO_NAME && m.product == s.product && m.updatedAt == now && !m.status.Queued? && MemberShape(m, s.db.rights, s.cfg)
    ensures FitsRows(s, s', m, None, now)
  {
    NoActiveRight(s.db, s.product, s.nextToken, m.user);
  }

  lemma {:induction false} OfferRowShape(s: State, m: Membership, now: Time)
    requires Head(s, m) && 0 < Counters(s.cache).available < m.quantity
    ensures var row := OfferRowFor(s, m, now);
      row.user == m.user && row.product == s.product && row.updatedAt == now && !row.status.Queued?
      && MemberShape(row, s.db.rights, s.cfg)
  {
  }

  lemma {:induction false} OffersRest(s: State, m: Membership, now: Time)
    requires InvAt(s, now) && !s.down && now > s.clock
    requires Head(s, m) && Counters(s.cache).count != 0 && 0 < Counters(s.cache).available < m.quantity
    ensures Decides(PopAndAllocate(s.cache).1)
    ensures InvAt(Iterate(s, now).0, now)
  {
    OfferIsStep(s, m, now);
    var (s', e) := Iterate(s, now);
    var row := OfferRowFor(s, m, now);
    OfferRowShape(s, m, now);
    if !e.StoreFailed? {
      RowFits(s, s', row, now);
    }
    StepKeepsInv(s, s', e, row, row, None, now);
  }

  lemma {:induction false} TurnsAway(s: State, m: Membership, now: Time)
    requires InvAt(s, now) && !s.down && now > s.clock
    requires Head(s, m) && Counters(s.cache).count == 0 && Counters(s.cache).available >= 0
    ensures Decides(PopAndAllocate(s.cache).1)
    ensures InvAt(Iterate(s, now).0, now)
  {
    SoldOutIsStep(s, m, now);
    var (s', e) := Iterate(s, now);
    var row := SoldOutRowFor(m, now);
    if !e.StoreFailed? {
      RowFits(s, s', row, now);
    }
    StepKeepsInv(s, s', e, row, row, None, now);
  }

  // What the head of the queue is given, by the numbers in the pool.
  function Verdict(s: State, m: Membership, now: Time): Membership {
    if Counters(s.cache).count == 0 then SoldOutRowFor(m, now)
    else if Counters(s.cache).available >= m.quantity then RowFor(s, m, now)
    else OfferRowFor(s, m, now)
  }

  function VerdictRight(s: State, m: Membership, now: Time): Option<Right> {
    if Counters(s.cache).count != 0 && Counters(s.cache).available >= m.quantity
    then Some(RightFor(s, m, now)) else None
  }

  predicate Idle(s: State) {
    s.cache.queue == [] || (Counters(s.cache).count > 0 && Counters(s.cache).available == 0)
  }

  // One turn of the loop: either it stops, or the head of the queue gets its verdict and
  // everything else stays; a failed turn changes nothing at all.
  lemma {:induction false} OneTurn(s: State, now: Time) returns (s1: State, e: Ended, m: Option<Membership>)
    requires InvAt(s, now) && !s.down && now > s.clock
    ensures m.None? <==> Idle(s)
    ensures m.None? ==> s1 == s && e.Finished? && AdvanceQueue(s, now) == (s, Finished)
    ensures m.Some? ==>
      && Head(s, m.value)
      && Stepped(s, s1, e, Verdict(s, m.value, now), Verdict(s, m.value, now), VerdictRight(s, m.value, now))
      && InvAt(s1, now) && SameRun(s, s1)
      && Decides(PopAndAllocate(s.cache).1) && (s1, e) == Iterate(s, now)
      && (!e.Died? ==> !s1.down)
      && (e.Finished? ==> s1.cache.queue == s.cache.queue[1..])
      && AdvanceQueue(s, now) == (if e.Finished? then AdvanceQueue(s1, now) else (s1, e))
  {
    AdvanceUnfolds(s, now);
    s1, e, m := s, Finished, None;
    if s.cache.queue != [] {
      var h := HeadIsQueued(s, now);
      if Idle(s) {
        IdlePop(s, h);
      } else {
        HeadGetsVerdict(s, h, now);
        IterateFrame(s, h, now);
        m := Some(h);
        s1, e := Iterate(s, now).0, Iterate(s, now).1;
      }
    }
  }

  lemma {:induction false} IdlePop(s: State, m: Membership)
    requires Head(s, m) && Idle(s)
    ensures PopAndAllocate(s.cache).1.status == Some(Queued)
  {
  }

  // The loop neither loses anybody from the queue but the head nor stops unless the process dies.
  lemma {:induction false} IterateFrame(s: State, m: Membership, now: Time)
    requires Head(s, m) && Decides(PopAndAllocate(s.cache).1)
    ensures var (s1, e) := Iterate(s, now);
      SameRun(s, s1) && (!e.Died? ==> !s1.down) && (e.Finished? ==> s1.cache.queue == s.cache.queue[1..])
  {
    assert Without(s.cache.queue, m.user) == s.cache.queue[1..];
  }

  lemma {:induction false} HeadGetsVerdict(s: State, m: Membership, now: Time)
    requires InvAt(s, now) && !s.down && now > s.clock && Head(s, m) && !Idle(s)
    requires 0 <= Counters(s.cache).available <= Counters(s.cache).count
    ensures Decides(PopAndAllocate(s.cache).1)
    ensures var (s1, e) := Iterate(s, now);
      Stepped(s, s1, e, Verdict(s, m, now), Verdict(s, m, now), VerdictRight(s, m, now)) && InvAt(s1, now)
  {
    var k := Counters(s.cache);
    if k.count == 0 {
      TurnsAway(s, m, now);
      SoldOutIsStep(s, m, now);
    } else if k.available >= m.quantity {
      ServesRight(s, m, now);
      RightIsStep(s, m, now);
    } else {
      OffersRest(s, m, now);
      OfferIsStep(s, m, now);
    }
  }

  lemma {:induction false} AdvanceUnfolds(s: State, now: Time)
    ensures var p := PopAndAllocate(s.cache).1;
      && (p.NoOne? || p.status == Some(Queued) ==> AdvanceQueue(s, now) == (s, Finished))
      && (Decides(p) ==>
            AdvanceQueue(s, now)
            == if Iterate(s, now).1.Finished? then AdvanceQueue(Iterate(s, now).0, now) else Iterate(s, now))
  {
  }

  lemma {:induction false} AdvanceKeepsInv(s: State, now: Time)
    requires InvAt(s, now) && !s.down && now > s.clock
    ensures InvAt(AdvanceQueue(s, now).0, now)
    decreases |s.cache.queue|
  {
    var s1, e, m := OneTurn(s, now);
    if m.Some? && e.Finished? {
      AdvanceKeepsInv(s1, now);
    }
  }

  // An operation that may or may not go on to advance the queue.
  predicate AdvancedOrNot(s: State, s': State, now: Time) {
    s' == s || (!s.down && s' == AdvanceQueue(s, now).0)
  }

  lemma {:induction false} AdvanceOrNotKeepsInv(s: State, s': State, now: Time)
    requires InvAt(s, now) && now > s.clock && AdvancedOrNot(s, s', now)
    ensures InvAt(s', now)
  {
    if s' != s {
      AdvanceKeepsInv(s, now);
    }
  }
}
