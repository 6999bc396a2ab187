/** A durable write that fails leaves no trace. */
module FailedWrites {
  import opened Models
  import opened CacheScripts
  import opened DurableTx
  import opened Service
  import opened Invariants
  import opened Advance
  import opened Joining

  // The pop, the units it took and the index entry are all put back: only a token is spent.
  lemma {:induction false} FailedTurnIsUndone(s: State, now: Time)
    requires InvAt(s, now) && !s.down && now > s.clock && !Idle(s)
    ensures Decides(PopAndAllocate(s.cache).1)
    ensures Iterate(s, now).1.StoreFailed? ==> Iterate(s, now).0 == s.(nextToken := Iterate(s, now).0.nextToken)
  {
    var s1, e, m := OneTurn(s, now);
  }

  // Somebody is left waiting for units that are there exactly when a write failed.
  lemma {:induction false} IdleIffFinished(s: State, now: Time)
    requires InvAt(s, now) && !s.down && now > s.clock && !AdvanceQueue(s, now).1.Died?
    ensures Idle(AdvanceQueue(s, now).0) <==> AdvanceQueue(s, now).1.Finished?
    decreases |s.cache.queue|
  {
    var s1, e, m := OneTurn(s, now);
    if m.Some? && e.Finished? {
      IdleIffFinished(s1, now);
    }
  }

  // First contact with the product aside, a failed join changes nothing.
  predicate SameButTouched(s: State, s': State) {
    && s' == s.(cache := s.cache.(stock := s'.cache.stock), db := s.db.(stock := s'.db.stock),
                nextToken := s'.nextToken, faults := s'.faults)
    && (s.cache.stock.Some? ==> s'.cache.stock == s.cache.stock)
    && (s.db.stock.Some? ==> s'.db.stock == s.db.stock)
  }

  lemma {:induction false} FailedJoinUnfolds(s: State, u: UserId, quantity: int, others: nat, fetched: Option<nat>, now: Time)
    requires !s.down && (Idempotent(s.cache, u).None? ==> u !in s.cache.slots)
    requires JoinQueue(s, u, quantity, others, fetched, now).1 == Refused(StoreUnavailable)
    ensures var s' := JoinQueue(s, u, quantity, others, fetched, now).0;
      s' == s
      || (fetched.Some? && quantity > 0 && Idempotent(s.cache, u).None?
          && var (s1, e1) := Touch(s, fetched.value);
             var (s2, e2) := Admit(WithSlot(s1, u), u, quantity, now);
             || (e1.StoreFailed? && s' == s1)
             || (e1.Finished? && e2.StoreFailed? && s' == s2.(cache := ReleaseSlot(s2.cache, u))))
  {
    if fetched.Some? {
      TouchThenSlot(s, u, fetched.value);
      var s1 := Touch(s, fetched.value).0;
      assert s1.cache.slots + {u} - {u} == s1.cache.slots || u in s.cache.slots;
    }
    assert s.cache.slots + {u} - {u} == s.cache.slots || u in s.cache.slots;
  }

  lemma {:induction false} TouchedOnly(s: State, total: nat)
    requires !Touch(s, total).1.Died?
    ensures SameButTouched(s, Touch(s, total).0) && Touch(s, total).0.down == s.down
    ensures s.db.stock.Some? || Touch(s, total).1.StoreFailed? || Touch(s, total).0.db.stock.Some?
  {
  }

  lemma {:induction false} FailedJoinLeavesNoTrace(s: State, u: UserId, quantity: int, others: nat, fetched: Option<nat>, now: Time)
    requires Inv(s) && !s.down && now > s.clock
    requires s.db.stock.None? && fetched.Some? ==> fetched.value == s.cfg.initialStock
    requires JoinQueue(s, u, quantity, others, fetched, now).1 == Refused(StoreUnavailable)
    ensures SameButTouched(s, JoinQueue(s, u, quantity, others, fetched, now).0)
  {
    if Idempotent(s.cache, u).None? {
      NobodyHasSlot(s, u);
    }
    FailedJoinUnfolds(s, u, quantity, others, fetched, now);
    var s' := JoinQueue(s, u, quantity, others, fetched, now).0;
    if s' != s {
      var (s1, e1) := Touch(s, fetched.value);
      TouchThenSlot(s, u, fetched.value);
      TouchedOnly(s, fetched.value);
      if e1.Finished? {
        TouchKeepsInv(s, fetched.value);
        LaterKeepsInv(s1, now);
        IsNewcomer(s1, u, now);
        AdmitIsStep(s1, u, quantity, now);
      }
    }
  }
}
