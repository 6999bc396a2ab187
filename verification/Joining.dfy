/** JoinQueue keeps the invariants, and a join that fails leaves no trace. */
module Joining {
  import opened Models
  import opened CacheScripts
  import opened DurableTx
  import opened Service
  import opened Invariants
  import opened Moves
  import opened Advance
  import opened MapSums

  // The product is known to both stores and the user takes no part in its sale.
  predicate Newcomer(s: State, u: UserId) {
    && s.db.stock.Some? && s.cache.stock.Some? && !s.down
    && s.cache.rights == s.db.rights && s.cache.members.Keys == s.db.members.Keys
    && s.nextToken !in s.db.rights
    && (u in s.db.members ==> s.db.members[u].status.IsTerminal())
    && Without(s.cache.queue, u) == s.cache.queue && u !in s.cache.index && u !in s.cache.slots
    && Enqueue(s.cache, u).queue == s.cache.queue + [Entry(s.cache.lastScore + 1, u)]
  }

  lemma {:induction false} IsNewcomer(s: State, u: UserId, now: Time)
    requires InvAt(s, now) && !s.down && s.db.stock.Some?
    requires Idempotent(s.cache, u).None?
    ensures Newcomer(s, u) && HeldBy(s.db.members, u) == 0
    ensures u !in s.db.members || s.db.members[u].token.None?
    ensures 0 <= Counters(s.cache).available
  {
    if u in s.db.members {
      assert MemberShape(s.db.members[u], s.db.rights, s.cfg);
    }
    HeldBounds(s.db, s.product, s.cfg, now, u);
    UsersDistinct(s.cache);
    WithoutMember(s.cache.queue, u);
    EnqueueAppends(s.cache, u);
  }

  function WithSlot(s: State, u: UserId): State {
    s.(cache := s.cache.(slots := s.cache.slots + {u}))
  }

  function EntryRow(s: State, u: UserId, quantity: int, now: Time): Membership {
    var a := TryAllocate(s.cache, quantity).1;
    var m := NewMembership(s, u, quantity, now);
    if a.granted == quantity then Holding(m, NewRight(s, m, quantity, now))
    else if a.offered > 0 then Offered(m, a.offered, now + s.cfg.offerTtl)
    else m.(status := if a.soldOut then SoldOut else Queued)
  }

  function EntryRight(s: State, u: UserId, quantity: int, now: Time): Option<Right> {
    if TryAllocate(s.cache, quantity).1.granted == quantity
    then Some(NewRight(s, NewMembership(s, u, quantity, now), quantity, now))
    else None
  }

  // The result of a join as seen from before the slot was taken.
  predicate Entered(s: State, u: UserId, quantity: int, now: Time) {
    var (s', e) := Admit(WithSlot(s, u), u, quantity, now);
    var row, r := EntryRow(s, u, quantity, now), EntryRight(s, u, quantity, now);
    if e.StoreFailed? then
      s'.nextToken >= s.nextToken && s'.(cache := ReleaseSlot(s'.cache, u)) == s.(nextToken := s'.nextToken)
    else
      Stepped(s, s', e, row, row, r) && s'.nextToken == s.nextToken + (if r.Some? then 1 else 0)
  }

  // The newcomer's row, right and units go together.
  lemma {:induction false} GrantUnfolds(s: State, u: UserId, quantity: int, now: Time)
    requires quantity > 0 && TryAllocate(s.cache, quantity).1.granted == quantity
    ensures var m := NewMembership(s, u, quantity, now);
      var r := NewRight(s, m, quantity, now);
      var t := WithSlot(s, u).(cache := RestoreUnits(WithSlot(s, u).cache, -quantity));
      && Admit(WithSlot(s, u), u, quantity, now)
         == Recorded(Persist(TokenSpent(t), IssueRight(s.db, r, Holding(m, r), now)), Holding(m, r), Some(r), quantity, now)
      && EntryRow(s, u, quantity, now) == Holding(m, r) && EntryRight(s, u, quantity, now) == Some(r)
  {
  }

  lemma {:induction false} GrantRollsBack(s: State, u: UserId, quantity: int, now: Time)
    requires Newcomer(s, u) && quantity > 0 && TryAllocate(s.cache, quantity).1.granted == quantity
    requires Admit(WithSlot(s, u), u, quantity, now).1.StoreFailed?
    ensures Entered(s, u, quantity, now)
  {
    GrantUnfolds(s, u, quantity, now);
    assert s.cache.slots + {u} - {u} == s.cache.slots;
    assert s.cache.stock == Some(Stock(Counters(s.cache).count, Counters(s.cache).available));
  }

  lemma {:induction false} GrantIsCached(s: State, u: UserId, quantity: int, now: Time)
    requires Newcomer(s, u) && quantity > 0 && HeldBy(s.db.members, u) == 0
    requires TryAllocate(s.cache, quantity).1.granted == quantity && Admit(WithSlot(s, u), u, quantity, now).1.Finished?
    ensures Entered(s, u, quantity, now)
  {
    GrantUnfolds(s, u, quantity, now);
    assert s.cache.index - {u} == s.cache.index;
  }

  lemma {:induction false} GrantIsStep(s: State, u: UserId, quantity: int, now: Time)
    requires Newcomer(s, u) && quantity > 0 && HeldBy(s.db.members, u) == 0
    requires TryAllocate(s.cache, quantity).1.granted == quantity
    ensures Entered(s, u, quantity, now)
  {
    match Admit(WithSlot(s, u), u, quantity, now).1
    case StoreFailed => GrantRollsBack(s, u, quantity, now);
    case Finished => GrantIsCached(s, u, quantity, now);
    case Died => GrantUnfolds(s, u, quantity, now);
  }

  lemma {:induction false} PartRollsBack(s: State, u: UserId, quantity: int, now: Time)
    requires Newcomer(s, u) && quantity > 0 && TryAllocate(s.cache, quantity).1.offered > 0
    requires Admit(WithSlot(s, u), u, quantity, now).1.StoreFailed?
    ensures Entered(s, u, quantity, now)
  {
    assert s.cache.slots + {u} - {u} == s.cache.slots;
    assert s.cache.stock == Some(Stock(Counters(s.cache).count, Counters(s.cache).available));
  }

  lemma {:induction false} PartIsStep(s: State, u: UserId, quantity: int, now: Time)
    requires Newcomer(s, u) && quantity > 0 && HeldBy(s.db.members, u) == 0
    requires TryAllocate(s.cache, quantity).1.offered > 0
    ensures Entered(s, u, quantity, now)
  {
    if Admit(WithSlot(s, u), u, quantity, now).1.StoreFailed? {
      PartRollsBack(s, u, quantity, now);
    } else {
      assert s.cache.index - {u} == s.cache.index;
    }
  }

  lemma {:induction false} SoldOutEntryIsStep(s: State, u: UserId, quantity: int, now: Time)
    requires Newcomer(s, u) && quantity > 0 && HeldBy(s.db.members, u) == 0
    requires Counters(s.cache).count == 0
    ensures Entered(s, u, quantity, now)
  {
    assert s.cache.slots + {u} - {u} == s.cache.slots;
    assert s.cache.index - {u} == s.cache.index;
    assert s.cache.stock == Some(Stock(Counters(s.cache).count, Counters(s.cache).available));
  }

  lemma {:induction false} WaitUnfolds(s: State, u: UserId, quantity: int, now: Time)
    requires quantity > 0 && TryAllocate(s.cache, quantity).1 == Allocation(0, 0, false)
    ensures var m := NewMembership(s, u, quantity, now);
      var w := Persist(WithSlot(s, u), UpsertMembership(s.db, m, now));
      && Admit(WithSlot(s, u), u, quantity, now)
         == (if w.1.Finished? then (Sync(w.0.(cache := Enqueue(w.0.cache, u)), m, None, now), Finished) else w)
      && EntryRow(s, u, quantity, now) == m && EntryRight(s, u, quantity, now) == None
  {
  }

  lemma {:induction false} WaitIsStep(s: State, u: UserId, quantity: int, now: Time)
    requires Newcomer(s, u) && quantity > 0 && HeldBy(s.db.members, u) == 0
    requires TryAllocate(s.cache, quantity).1 == Allocation(0, 0, false)
    ensures Entered(s, u, quantity, now)
  {
    WaitUnfolds(s, u, quantity, now);
    assert s.cache.slots + {u} - {u} == s.cache.slots;
    assert s.cache.stock == Some(Stock(Counters(s.cache).count, Counters(s.cache).available));
  }

  // At a join every waiting row is older than the newcomer's.
  lemma {:induction false} EntryFits(s: State, s': State, u: UserId, quantity: int, now: Time)
    requires StoreInv(s, s.clock) && s.clock < now && s.cfg.Valid() && quantity > 0
    requires u != NO_NAME && s.nextToken != NO_NAME
    requires u !in s.db.members || (s.db.members[u].token.None? && !s.db.members[u].status.Queued?)
    requires RowsMoved(s.db, s'.db, EntryRow(s, u, quantity, now), EntryRight(s, u, quantity, now))
    requires s'.nextToken == s.nextToken + (if EntryRight(s, u, quantity, now).Some? then 1 else 0)
    ensures FitsRows(s, s', EntryRow(s, u, quantity, now), EntryRight(s, u, quantity, now), now)
  {
    NoActiveRight(s.db, s.product, s.nextToken, u);
  }

  lemma {:induction false} AdmitIsStep(s: State, u: UserId, quantity: int, now: Time)
    requires Newcomer(s, u) && quantity > 0 && HeldBy(s.db.members, u) == 0
    ensures Entered(s, u, quantity, now)
  {
    var a := TryAllocate(s.cache, quantity).1;
    if a.granted == quantity {
      GrantIsStep(s, u, quantity, now);
    } else if a.offered > 0 {
      PartIsStep(s, u, quantity, now);
    } else if a.soldOut {
      SoldOutEntryIsStep(s, u, quantity, now);
    } else {
      WaitIsStep(s, u, quantity, now);
    }
  }

  lemma {:induction false} EntryUnits(s: State, u: UserId, quantity: int, now: Time)
    requires Counters(s.cache).available >= 0
    ensures Counters(s.cache).available - EntryRow(s, u, quantity, now).Units() >= 0
  {
  }

  lemma {:induction false} AdmitKeepsInv(s: State, u: UserId, quantity: int, now: Time)
    requires Inv(s) && !s.down && now > s.clock && s.db.stock.Some?
    requires Idempotent(s.cache, u).None? && quantity > 0 && u != NO_NAME
    ensures var (s', e) := Admit(WithSlot(s, u), u, quantity, now);
      InvAt(if e.StoreFailed? then s'.(cache := ReleaseSlot(s'.cache, u)) else s', now)
  {
    LaterKeepsInv(s, now);
    IsNewcomer(s, u, now);
    AdmitIsStep(s, u, quantity, now);
    EntryUnits(s, u, quantity, now);
    var (s', e) := Admit(WithSlot(s, u), u, quantity, now);
    var row, r := EntryRow(s, u, quantity, now), EntryRight(s, u, quantity, now);
    var final := if e.StoreFailed? then s'.(cache := ReleaseSlot(s'.cache, u)) else s';
    if !e.StoreFailed? {
      EntryFits(s, s', u, quantity, now);
    }
    StepKeepsInv(s, final, e, row, row, r, now);
  }

  lemma {:induction false} LaterKeepsInv(s: State, now: Time)
    requires Inv(s) && now >= s.clock
    ensures InvAt(s, now)
  {
  }

  // ---- First contact ----

  lemma {:induction false} SumsOfNothing()
    ensures Held(map[]) == 0 && Sold(map[]) == 0
  {
    SumAllZero(UnitsOf(map[]));
    SumAllZero(UsedUnitsOf(map[]));
  }

  lemma {:induction false} EmptyQueue(s: State)
    requires Inv(s) && !s.down && s.db.members == map[]
    ensures s.cache.queue == []
  {
    if s.cache.queue != [] {
      HeadHasMembership(s.cache);
    }
  }

  lemma {:induction false} LaterTouch(s: State, total: nat)
    requires s.db.stock.Some? && s.cache.stock.Some?
    ensures var s1 := Touch(s, total).0; s1 == s.(faults := s1.faults, down := s1.down)
  {
  }

  // Before the first contact the tables are empty.
  lemma {:induction false} FirstTouch(s: State, total: nat)
    requires Inv(s) && !s.down && s.db.stock.None? && total == s.cfg.initialStock
    ensures var s1 := Touch(s, total).0;
      && s1.cache == s.cache.(stock := Some(Stock(total, total)))
      && s1.db == s.db.(stock := s1.db.stock) && SameRun(s, s1) && s1.nextToken == s.nextToken
      && s1.cache.queue == []
      && (s1.db.stock.None? || s1.db.stock == Some(StockRow(s.product, total, total)))
      && (!Touch(s, total).1.StoreFailed? ==> s1.db.stock.Some?)
  {
    EmptyQueue(s);
  }

  lemma {:induction false} FirstTouchKeepsInv(s: State, s1: State, total: nat)
    requires Inv(s) && !s.down && s.db.stock.None? && total == s.cfg.initialStock
    requires s1.cache == s.cache.(stock := Some(Stock(total, total))) && s1.cache.queue == []
    requires s1.db == s.db.(stock := s1.db.stock) && SameRun(s, s1) && s1.nextToken == s.nextToken
    requires s1.db.stock.None? || s1.db.stock == Some(StockRow(s.product, total, total))
    ensures Inv(s1)
  {
    SumsOfNothing();
  }

  lemma {:induction false} TouchKeepsInv(s: State, total: nat)
    requires Inv(s) && !s.down
    requires s.db.stock.None? ==> total == s.cfg.initialStock
    ensures Inv(Touch(s, total).0)
    ensures !Touch(s, total).1.StoreFailed? ==> Touch(s, total).0.db.stock.Some?
  {
    var s1 := Touch(s, total).0;
    if s.db.stock.None? {
      FirstTouch(s, total);
      FirstTouchKeepsInv(s, s1, total);
    } else {
      LaterTouch(s, total);
      FaultsDoNotMatter(s, s1, s.clock);
    }
  }

  lemma {:induction false} TouchThenSlot(s: State, u: UserId, total: nat)
    ensures Touch(WithSlot(s, u), total) == (WithSlot(Touch(s, total).0, u), Touch(s, total).1)
    ensures Touch(s, total).0.cache.members == s.cache.members
    ensures Touch(s, total).0.cache.rights == s.cache.rights
    ensures Touch(s, total).0.cache.slots == s.cache.slots
    ensures Touch(s, total).0.clock == s.clock
    ensures !Touch(s, total).1.Died? ==> Touch(s, total).0.down == s.down
    ensures Touch(s, total).1.Died? ==> Touch(s, total).0.down
    ensures Idempotent(Touch(s, total).0.cache, u) == Idempotent(s.cache, u)
  {
  }

  lemma {:induction false} SlotsDoNotMatterWhenDown(s: State, u: UserId, now: Time)
    requires InvAt(s, now) && s.down
    ensures InvAt(WithSlot(s, u), now)
  {
  }

  // The four ways a join can end.
  lemma {:induction false} JoinUnfolds(s: State, u: UserId, quantity: int, others: nat, fetched: Option<nat>, now: Time)
    requires !s.down && (Idempotent(s.cache, u).None? ==> u !in s.cache.slots)
    ensures var s' := JoinQueue(s, u, quantity, others, fetched, now).0;
      s' == s
      || (fetched.Some? && quantity > 0 && Idempotent(s.cache, u).None?
          && var (s1, e1) := Touch(s, fetched.value);
             var (s2, e2) := Admit(WithSlot(s1, u), u, quantity, now);
             || (e1.Died? && s' == WithSlot(s1, u))
             || (e1.StoreFailed? && s' == s1)
             || (e1.Finished? && s' == if e2.StoreFailed? then s2.(cache := ReleaseSlot(s2.cache, u)) else s2))
  {
    if fetched.Some? {
      TouchThenSlot(s, u, fetched.value);
      var s1 := Touch(s, fetched.value).0;
      assert s1.cache.slots + {u} - {u} == s1.cache.slots || u in s.cache.slots;
    }
    assert s.cache.slots + {u} - {u} == s.cache.slots || u in s.cache.slots;
  }

  lemma {:induction false} LiveUsersAreIn(s: State, u: UserId)
    requires Inv(s) && !s.down && u in s.cache.members && s.cache.members[u].IsLive()
    ensures Idempotent(s.cache, u).Some?
  {
    assert MemberShape(s.db.members[u], s.db.rights, s.cfg);
  }

  lemma {:induction false} NobodyHasSlot(s: State, u: UserId)
    requires Inv(s) && !s.down && Idempotent(s.cache, u).None?
    ensures u !in s.cache.slots
  {
    assert s.cache.slots == LiveUsers(s.cache.members);
    if u in LiveUsers(s.cache.members) {
      LiveUsersAreIn(s, u);
    }
  }

  // What follows the first contact keeps the invariants.
  lemma {:induction false} AfterTouchKeepsInv(s1: State, e1: Ended, s': State, u: UserId, quantity: int, now: Time)
    requires Inv(s1) && now > s1.clock && u != NO_NAME && quantity > 0
    requires e1.Died? <==> s1.down
    requires !e1.StoreFailed? ==> s1.db.stock.Some?
    requires Idempotent(s1.cache, u).None?
    requires var (s2, e2) := Admit(WithSlot(s1, u), u, quantity, now);
      || (e1.Died? && s' == WithSlot(s1, u))
      || (e1.StoreFailed? && s' == s1)
      || (e1.Finished? && s' == if e2.StoreFailed? then s2.(cache := ReleaseSlot(s2.cache, u)) else s2)
    ensures InvAt(s', now)
  {
    LaterKeepsInv(s1, now);
    if e1.Died? {
      SlotsDoNotMatterWhenDown(s1, u, now);
    } else if e1.Finished? {
      AdmitKeepsInv(s1, u, quantity, now);
    }
  }

  lemma {:induction false} JoinKeepsInv(s: State, u: UserId, quantity: int, others: nat, fetched: Option<nat>, now: Time)
    requires Inv(s) && !s.down && now > s.clock && u != NO_NAME
    requires s.db.stock.None? && fetched.Some? ==> fetched.value == s.cfg.initialStock
    ensures InvAt(JoinQueue(s, u, quantity, others, fetched, now).0, now)
  {
    LaterKeepsInv(s, now);
    if Idempotent(s.cache, u).None? {
      NobodyHasSlot(s, u);
    }
    JoinUnfolds(s, u, quantity, others, fetched, now);
    var s' := JoinQueue(s, u, quantity, others, fetched, now).0;
    if s' != s {
      TouchKeepsInv(s, fetched.value);
      TouchThenSlot(s, u, fetched.value);
      AfterTouchKeepsInv(Touch(s, fetched.value).0, Touch(s, fetched.value).1, s', u, quantity, now);
    }
  }
}
