/** What the advance of the queue writes about each user whom it serves or turns away. */
module AdvanceOutcome {
  import opened Models
  import opened CacheScripts
  import opened DurableTx
  import opened Service
  import opened Invariants
  import opened Moves
  import opened Advance
  import opened Expiry
  import opened Progress
  import opened Absence

  // ---- Rights are only added ----

  predicate RightsStay(d: Durable, d': Durable) {
    forall t :: t in d.rights ==> t in d'.rights && d'.rights[t] == d.rights[t]
  }

  lemma {:induction false} TurnAddsRight(s: State, s1: State, e: Ended, m: Membership, now: Time)
    requires Head(s, m) && Stepped(s, s1, e, Verdict(s, m, now), Verdict(s, m, now), VerdictRight(s, m, now))
    ensures RightsStay(s.db, s1.db)
  {
  }

  lemma {:induction false} AdvanceAddsRights(s: State, now: Time)
    requires InvAt(s, now) && !s.down && now > s.clock
    ensures RightsStay(s.db, AdvanceQueue(s, now).0.db)
    decreases |s.cache.queue|
  {
    var s1, e, m := OneTurn(s, now);
    if m.Some? {
      TurnAddsRight(s, s1, e, m.value, now);
      if e.Finished? {
        AdvanceAddsRights(s1, now);
      }
    }
  }

  // ---- The row of a waiter ----

  // What it wanted and when it came stays; the deadline is that of its status.
  predicate IsDecided(m: Membership, m': Membership, rights: map<Token, Right>, cfg: Config, now: Time) {
    && m'.product == m.product && m'.user == m.user && m'.quantity == m.quantity
    && m'.createdAt == m.createdAt && m'.updatedAt == now
    && match m'.status
       case RightActive =>
         && m'.available.None? && m'.expiresAt == Some(now + cfg.paymentTtl)
         && m'.token.Some? && m'.token.value in rights
         && rights[m'.token.value]
            == Right(m'.token.value, m.user, m.product, m.quantity, Active, None, now, now + cfg.paymentTtl, None)
       case OfferPending =>
         m'.available.Some? && 0 < m'.available.value < m.quantity && m'.token.None? && m'.expiresAt == Some(now + cfg.offerTtl)
       case SoldOut => m'.available.None? && m'.token.None? && m'.expiresAt.None?
       case _ => false
  }

  predicate HasItsTimer(s: State, m: Membership) {
    m.IsTimed() && !s.down ==>
      m.expiresAt.Some? && m.user in s.cache.timers.scheduled && s.cache.timers.scheduled[m.user] == Seconds(m.expiresAt.value)
  }

  predicate Waited(s: State, s': State, u: UserId, now: Time)
    requires u in s.db.members
  {
    && u in s'.db.members
    && (s'.db.members[u] == s.db.members[u]
        || (IsDecided(s.db.members[u], s'.db.members[u], s'.db.rights, s.cfg, now) && HasItsTimer(s', s'.db.members[u])))
  }

  lemma {:induction false} HeadIsDecided(s: State, s1: State, e: Ended, m: Membership, now: Time)
    requires Head(s, m) && !Idle(s)
    requires Stepped(s, s1, e, Verdict(s, m, now), Verdict(s, m, now), VerdictRight(s, m, now))
    requires 0 <= Counters(s.cache).available <= Counters(s.cache).count
    ensures Waited(s, s1, m.user, now) && (e.Finished? ==> !Queues(s1.db, m.user))
  {
  }

  lemma {:induction false} OthersWaitOn(s: State, s1: State, e: Ended, m: Membership, u: UserId, now: Time)
    requires Head(s, m) && Stepped(s, s1, e, Verdict(s, m, now), Verdict(s, m, now), VerdictRight(s, m, now))
    requires Queues(s.db, u) && u != m.user
    ensures Queues(s1.db, u) && s1.db.members[u] == s.db.members[u] && s1.cfg == s.cfg
  {
  }

  lemma {:induction false} WaitedOn(s: State, s1: State, s2: State, u: UserId, now: Time)
    requires u in s.db.members && s.db.members[u].user == u && Waited(s, s1, u, now)
    requires u in s2.db.members && s2.db.members[u] == s1.db.members[u]
    requires RightsStay(s1.db, s2.db) && LeavesTimer(s1, s2, u) && !s1.down
    ensures Waited(s, s2, u, now)
  {
  }

  // Once decided, the rest of the advance leaves it so.
  lemma {:induction false} StaysDecided(s: State, s1: State, u: UserId, now: Time)
    requires u in s.db.members && s.db.members[u].user == u && Waited(s, s1, u, now)
    requires InvAt(s1, now) && !s1.down && now > s1.clock && !Queues(s1.db, u)
    ensures Waited(s, AdvanceQueue(s1, now).0, u, now)
  {
    AdvanceLeavesOthers(s1, u, now);
    AdvanceLeavesTimer(s1, u, now);
    AdvanceAddsRights(s1, now);
    WaitedOn(s, s1, AdvanceQueue(s1, now).0, u, now);
  }

  lemma {:induction false} PoolIsNotNegative(s: State, now: Time)
    requires InvAt(s, now) && !s.down && s.cache.stock.Some? && s.db.stock.Some?
    ensures 0 <= Counters(s.cache).available <= Counters(s.cache).count
  {
    HeldBounds(s.db, s.product, s.cfg, now, 0);
  }

  // Whatever fails, a waiting user keeps its row, or it has exactly the row, the right and the
  // timer that go with the decision.
  lemma {:induction false} AdvanceDecides(s: State, u: UserId, now: Time)
    requires InvAt(s, now) && !s.down && now > s.clock && Queues(s.db, u)
    ensures Waited(s, AdvanceQueue(s, now).0, u, now)
    decreases |s.cache.queue|
  {
    var s1, e, m := OneTurn(s, now);
    if m.Some? {
      if m.value.user == u {
        PoolIsNotNegative(s, now);
        HeadIsDecided(s, s1, e, m.value, now);
        if e.Finished? {
          StaysDecided(s, s1, u, now);
        }
      } else {
        OthersWaitOn(s, s1, e, m.value, u, now);
        if e.Finished? {
          AdvanceDecides(s1, u, now);
        }
      }
    }
  }
}
