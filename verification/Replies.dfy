/** What the service answers is so, and what it refuses has not happened. */
module Replies {
  import opened Models
  import opened CacheScripts
  import opened DurableTx
  import opened Service
  import opened Invariants
  import opened Advance
  import opened Operations
  import opened Payment
  import opened Joining
  import opened Expiry
  import opened Progress
  import opened FailedWrites

  // Errors that say no; only an unavailable store may strike in the middle.
  predicate SaysNo(r: Reply) {
    r.Refused? && r.error != StoreUnavailable
  }

  // The right exists, is active, and its user's membership holds it, in both stores.
  predicate IsHeld(s: State, r: Right) {
    && r.token in s.db.rights && s.db.rights[r.token].status.Active? && Succeeds(r, s.db.rights[r.token])
    && r.user in s.db.members && s.db.members[r.user].status.RightActive?
    && s.db.members[r.user].token == Some(r.token) && s.db.members[r.user].quantity == r.quantity
    && (!s.down ==> s.cache.rights == s.db.rights
                    && r.user in s.cache.members && s.cache.members[r.user] == s.db.members[r.user])
  }

  lemma {:induction false} HolderHolds(s: State, u: UserId, r: Right, now: Time)
    requires InvAt(s, now) && u in s.db.members && s.db.members[u].status.RightActive?
    requires s.db.members[u].token == Some(r.token) && r.user == u && s.db.members[u].quantity == r.quantity
    requires r.token in s.db.rights && Succeeds(r, s.db.rights[r.token])
    ensures IsHeld(s, r)
  {
    assert MemberShape(s.db.members[u], s.db.rights, s.cfg);
  }

  // Advancing the queue takes nothing from whoever holds a right.
  lemma {:induction false} StillHeld(s1: State, s2: State, u: UserId, r: Right, now: Time)
    requires InvAt(s1, now) && now > s1.clock && AdvancedOrNot(s1, s2, now)
    requires u in s1.db.members && s1.db.members[u].status.RightActive?
    requires s1.db.members[u].token == Some(r.token) && r.user == u && s1.db.members[u].quantity == r.quantity
    requires r.token in s1.db.rights && s1.db.rights[r.token] == r && r.status.Active?
    ensures IsHeld(s2, r)
  {
    if s2 != s1 {
      AdvanceKeepsInv(s1, now);
      AdvanceLeavesOthers(s1, u, now);
      AdvanceProgresses(s1, now);
    }
    HolderHolds(s2, u, r, now);
  }

  // ---- Joining ----

  lemma {:induction false} JoinAnswers(s: State, u: UserId, quantity: int, others: nat, fetched: Option<nat>, now: Time)
    requires !s.down && (Idempotent(s.cache, u).None? ==> u !in s.cache.slots)
    ensures var (s', reply) := JoinQueue(s, u, quantity, others, fetched, now);
      && (SaysNo(reply) ==> s' == s)
      && (reply.Existing? ==> s' == s && u in s.cache.members && reply.member == s.cache.members[u] && reply.member.IsLive())
      && (reply.Ok? || reply.Granted? ==>
            fetched.Some? && quantity > 0 && Idempotent(s.cache, u).None? && others < s.cfg.slotLimit
            && var (s1, e1) := Touch(s, fetched.value);
               var (s2, e2) := Admit(WithSlot(s1, u), u, quantity, now);
               e1.Finished? && e2.Finished? && s' == s2 && reply == JoinReply(s1, u, quantity, now))
  {
    if fetched.Some? {
      TouchThenSlot(s, u, fetched.value);
    }
  }

  // What a newcomer is told is what both stores hold about it.
  predicate Told(s': State, reply: Reply, u: UserId, quantity: int) {
    && u in s'.db.members && s'.db.members[u].quantity == quantity
    && u in s'.cache.members && s'.cache.members[u] == s'.db.members[u]
    && if reply.Granted? then
         reply.right.user == u && reply.right.quantity == quantity && IsHeld(s', reply.right)
       else
         s'.db.members[u].status.Queued? || s'.db.members[u].status.OfferPending? || s'.db.members[u].status.SoldOut?
  }

  lemma {:induction false} EntryIsTold(s: State, s': State, u: UserId, quantity: int, now: Time)
    requires Newcomer(s, u) && InvAt(s', now)
    requires var row := EntryRow(s, u, quantity, now); Stepped(s, s', Finished, row, row, EntryRight(s, u, quantity, now))
    requires quantity > 0
    ensures Told(s', JoinReply(s, u, quantity, now), u, quantity)
  {
    var r := EntryRight(s, u, quantity, now);
    if r.Some? {
      HolderHolds(s', u, r.value, now);
    }
  }

  lemma {:induction false} JoinTellsTruth(s: State, u: UserId, quantity: int, others: nat, fetched: Option<nat>, now: Time)
    requires Inv(s) && !s.down && now > s.clock && u != NO_NAME
    requires s.db.stock.None? && fetched.Some? ==> fetched.value == s.cfg.initialStock
    ensures var (s', reply) := JoinQueue(s, u, quantity, others, fetched, now);
      && (SaysNo(reply) || reply.Existing? ==> s' == s)
      && (reply == Refused(StoreUnavailable) ==> SameButTouched(s, s'))
      && (reply.Ok? || reply.Granted? ==> others < s.cfg.slotLimit && Told(s', reply, u, quantity))
  {
    if Idempotent(s.cache, u).None? {
      NobodyHasSlot(s, u);
    }
    JoinAnswers(s, u, quantity, others, fetched, now);
    var (s', reply) := JoinQueue(s, u, quantity, others, fetched, now);
    if reply == Refused(StoreUnavailable) {
      FailedJoinLeavesNoTrace(s, u, quantity, others, fetched, now);
    } else if reply.Ok? || reply.Granted? {
      JoinKeepsInv(s, u, quantity, others, fetched, now);
      JoinIsTold(s, u, quantity, fetched.value, now);
    }
  }

  lemma {:induction false} JoinIsTold(s: State, u: UserId, quantity: int, total: nat, now: Time)
    requires Inv(s) && !s.down && now > s.clock && quantity > 0 && Idempotent(s.cache, u).None?
    requires s.db.stock.None? ==> total == s.cfg.initialStock
    requires Touch(s, total).1.Finished?
    requires var s1 := Touch(s, total).0;
      Admit(WithSlot(s1, u), u, quantity, now).1.Finished? && InvAt(Admit(WithSlot(s1, u), u, quantity, now).0, now)
    ensures var s1 := Touch(s, total).0;
      Told(Admit(WithSlot(s1, u), u, quantity, now).0, JoinReply(s1, u, quantity, now), u, quantity)
  {
    var s1 := Touch(s, total).0;
    TouchKeepsInv(s, total);
    TouchThenSlot(s, u, total);
    LaterKeepsInv(s1, now);
    IsNewcomer(s1, u, now);
    AdmitIsStep(s1, u, quantity, now);
    EntryIsTold(s1, Admit(WithSlot(s1, u), u, quantity, now).0, u, quantity, now);
  }

  // ---- Accepting, leaving, paying ----

  lemma {:induction false} AcceptAnswers(s: State, u: UserId, accepted: int, now: Time)
    requires !s.down
    ensures var (s', reply) := AcceptOffer(s, u, accepted, now);
      && (SaysNo(reply) ==> s' == s)
      && (reply.Granted? ==>
            u in s.cache.members && s.cache.members[u].status.OfferPending? && s.cache.members[u].available.Some?
            && 0 < accepted <= s.cache.members[u].available.value
            && var (s1, e) := TakeOffer(s, s.cache.members[u], accepted, now);
               e.Finished? && s1.clock == s.clock && AdvancedOrNot(s1, s', now)
               && reply.right == NewRight(s, s.cache.members[u], accepted, now))
  {
  }

  lemma {:induction false} AcceptTellsTruth(s: State, u: UserId, accepted: int, now: Time)
    requires InvAt(s, now) && !s.down && now > s.clock
    ensures var (s', reply) := AcceptOffer(s, u, accepted, now);
      && (SaysNo(reply) ==> s' == s)
      && (reply.Granted? ==> reply.right.user == u && reply.right.quantity == accepted && IsHeld(s', reply.right))
  {
    AcceptAnswers(s, u, accepted, now);
    var (s', reply) := AcceptOffer(s, u, accepted, now);
    if reply.Granted? {
      var m := s.cache.members[u];
      Lookup(s, u, now);
      AcceptIsStep(s, m, accepted, now);
      TakeOfferKeepsInv(s, u, accepted, now);
      StillHeld(TakeOffer(s, m, accepted, now).0, s', u, reply.right, now);
    }
  }

  lemma {:induction false} PayAnswers(s: State, token: Token, order: OrderId, now: Time)
    requires !s.down
    ensures var (s', reply) := ProcessPayment(s, token, order, now);
      && (SaysNo(reply) ==> s' == s)
      && (reply == Ok ==>
            UseRight(s.db, token, order, now).TxResult?
            && var (s1, e) := Paid(s, token, order, now);
               e.Finished? && s1.clock == s.clock && AdvancedOrNot(s1, s', now))
  {
  }

  // Success means that the right is used, by this order; a refusal that nothing happened.
  lemma {:induction false} PayTellsTruth(s: State, token: Token, order: OrderId, now: Time)
    requires InvAt(s, now) && !s.down && now > s.clock
    ensures var (s', reply) := ProcessPayment(s, token, order, now);
      && (SaysNo(reply) ==> s' == s)
      && (reply == Ok ==> Replays(s', token, order) && token in s'.db.outbox && s'.db.outbox[token].order == order)
  {
    PayAnswers(s, token, order, now);
    var (s', reply) := ProcessPayment(s, token, order, now);
    if reply == Ok {
      PaidIsUsed(s, token, order, now);
      UsedStaysUsed(Paid(s, token, order, now).0, s', token, order, now);
    }
  }

  lemma {:induction false} PaidIsUsed(s: State, token: Token, order: OrderId, now: Time)
    requires InvAt(s, now) && !s.down && now > s.clock
    requires UseRight(s.db, token, order, now).TxResult? && Paid(s, token, order, now).1.Finished?
    ensures InvAt(Paid(s, token, order, now).0, now) && Replays(Paid(s, token, order, now).0, token, order)
  {
    if UseRight(s.db, token, order, now).transitioned {
      SaleKeepsInv(s, token, order, now);
    } else {
      ReplayRecordsNothing(s, token, order, now);
    }
  }

  lemma {:induction false} UsedStaysUsed(s1: State, s2: State, token: Token, order: OrderId, now: Time)
    requires InvAt(s1, now) && now > s1.clock && AdvancedOrNot(s1, s2, now) && Replays(s1, token, order)
    ensures Replays(s2, token, order) && token in s2.db.outbox && s2.db.outbox[token].order == order
  {
    if s2 != s1 {
      AdvanceProgresses(s1, now);
    }
  }
}
