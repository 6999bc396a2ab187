/** What declining and leaving come to: which reply, and what becomes of the units. */
module LeaveOutcome {
  import opened Models
  import opened CacheScripts
  import opened DurableTx
  import opened Service
  import opened Invariants
  import opened Advance
  import opened Operations
  import opened Expiry
  import opened Greedy
  import T = Timers

  predicate IsLate(m: Membership, now: Time) {
    m.expiresAt.Some? && now > m.expiresAt.value
  }

  // What the requests look at is the same in both stores.
  lemma {:induction false} RowSeen(s: State, u: UserId, now: Time)
    requires InvAt(s, now) && !s.down
    ensures u in s.cache.members <==> u in s.db.members
    ensures u in s.db.members ==>
      var (m, c) := (s.db.members[u], s.cache.members[u]);
      && c.status == m.status && c.expiresAt == m.expiresAt && c.available == m.available && c.token == m.token
      && (m.IsLive() ==> c == m) && !m.status.UnknownMembershipStatus?
      && (m.status.OfferPending? ==> m.available.Some? && m.available.value > 0)
      && (m.IsTimed() <==> m.expiresAt.Some?)
  {
    if u in s.db.members {
      assert MemberShape(s.db.members[u], s.db.rights, s.cfg);
      assert s.cache.members[u].SameUpToStamp(s.db.members[u]);
    }
  }

  // ---- What is released ----

  // Both stores when the membership has ended and its units are back in the pool. The cached
  // row carries a stamp of its own.
  predicate Released(s: State, s1: State, m: Membership, stamp: Time, now: Time) {
    && s1.db.members == s.db.members[m.user := m.Settled(Declined, now)]
    && s1.cache.members == s.cache.members[m.user := m.Settled(Declined, stamp)]
    && s1.db.rights == (if m.status.RightActive? && m.token.Some? && m.token.value in s.db.rights
                        then s.db.rights[m.token.value := s.db.rights[m.token.value].(status := Expired)] else s.db.rights)
    && s1.cache.rights == s1.db.rights && s1.db.stock == s.db.stock && s1.db.outbox == s.db.outbox
    && s1.cache.stock == Some(Stock(Counters(s.cache).count, Counters(s.cache).available + m.Units()))
    && s1.cache.queue == (if m.status.Queued? then Without(s.cache.queue, m.user) else s.cache.queue)
    && s1.cache.index == s.cache.index - {m.user} && s1.cache.slots == s.cache.slots - {m.user}
  }

  function TimersLeft(t: T.Timers, u: UserId, removed: bool): T.Timers {
    if removed then T.Timers(t.scheduled - {u}, t.processing, t.deadlines) else t
  }

  lemma {:induction false} QuitIsExact(s: State, m: Membership, stamp: Time, now: Time)
    requires Cached(s, m) && m.status.Queued? && QuitQueue(s, m.Settled(Declined, stamp), now).1.Finished?
    ensures var s1 := QuitQueue(s, m.Settled(Declined, stamp), now).0;
      Released(s, s1, m, stamp, now) && s1.cache.timers == s.cache.timers && !s1.down
  {
    assert s.cache.stock == Some(Counters(s.cache));
  }

  lemma {:induction false} CloseIsExact(s: State, m: Membership, stamp: Time, removeTimer: bool, now: Time)
    requires Cached(s, m) && m.status.OfferPending? && CloseOffer(s, m, stamp, removeTimer, now).1.Finished?
    ensures var s1 := CloseOffer(s, m, stamp, removeTimer, now).0;
      Released(s, s1, m, stamp, now) && s1.cache.timers == TimersLeft(s.cache.timers, m.user, removeTimer) && !s1.down
  {
    assert s.cache.index - {m.user} == s.cache.index;
  }

  lemma {:induction false} ExpiryIsExact(s: State, m: Membership, after: Durable, removeTimer: bool, now: Time)
    requires Cached(s, m) && m.status.RightActive? && s.db.rights[m.token.value].token == m.token.value
    requires after.members == s.db.members[m.user := m.Settled(Declined, now)]
    requires after.rights == s.db.rights[m.token.value := ExpiredRight(s, m)]
    requires after.stock == s.db.stock && after.outbox == s.db.outbox
    requires ExpireHeld(s, m, after, ExpiredRight(s, m), now, removeTimer, now).1.Finished?
    ensures var s1 := ExpireHeld(s, m, after, ExpiredRight(s, m), now, removeTimer, now).0;
      Released(s, s1, m, now, now) && s1.cache.timers == TimersLeft(s.cache.timers, m.user, removeTimer) && !s1.down
  {
    assert s.cache.index - {m.user} == s.cache.index;
    assert s.cache.stock == Some(Counters(s.cache));
  }

  // A transition r that ends the membership m. Without a failing write it succeeds; then s1 is
  // when the units are back, and the queue advances from there if it has to.
  ghost predicate Ends(s: State, s1: State, m: Membership, stamp: Time, removed: bool, r: (State, Reply), advances: bool, now: Time) {
    && (s.faults.Healthy? ==> r.1 == Ok) && (r.1.Refused? ==> r.1.error == StoreUnavailable)
    && (r.1 == Ok ==>
          && Released(s, s1, m, stamp, now) && InvAt(s1, now) && !s1.down && s1.clock == s.clock
          && s1.cache.timers == TimersLeft(s.cache.timers, m.user, removed)
          && r.0 == if advances then AdvanceQueue(s1, now).0 else s1)
  }

  // What remains when the transition itself is known: the advance decides the reply.
  lemma {:induction false} ThenAdvances(s: State, s1: State, e: Ended, m: Membership, stamp: Time, removed: bool, r: (State, Reply), now: Time)
    requires InvAt(s1, now) && now > s.clock && s1.clock == s.clock
    requires r == if e.Finished? then (AdvanceQueue(s1, now).0, Replied(AdvanceQueue(s1, now).1, Ok)) else (s1, Replied(e, Ok))
    requires s.faults.Healthy? ==> e.Finished? && s1.faults.Healthy?
    requires e.Finished? ==>
      Released(s, s1, m, stamp, now) && !s1.down && s1.cache.timers == TimersLeft(s.cache.timers, m.user, removed)
    ensures Ends(s, s1, m, stamp, removed, r, true, now)
  {
    if s.faults.Healthy? {
      HealthyAdvanceFinishes(s1, now);
    }
  }

  // An offer that somebody ends: its units go back, and then the queue advances.
  lemma {:induction false} OfferIsReleased(s: State, u: UserId, stamp: Time, removeTimer: bool, now: Time) returns (s1: State)
    requires InvAt(s, now) && !s.down && now > s.clock && u in s.cache.members && s.cache.members[u].status.OfferPending?
    ensures var m := s.cache.members[u];
      m.available.Some? && Ends(s, s1, m, stamp, removeTimer, EndOffer(s, m, stamp, removeTimer, false, now), true, now)
  {
    var m := s.cache.members[u];
    Lookup(s, u, now);
    CloseOfferKeepsInv(s, u, stamp, removeTimer, now);
    var e;
    s1, e := CloseOffer(s, m, stamp, removeTimer, now).0, CloseOffer(s, m, stamp, removeTimer, now).1;
    if e.Finished? {
      CloseIsExact(s, m, stamp, removeTimer, now);
    }
    CloseIsHealthy(s, m, stamp, removeTimer, now);
    EndOfferGoesOn(s, m, stamp, removeTimer, now);
    ThenAdvances(s, s1, e, m, stamp, removeTimer, EndOffer(s, m, stamp, removeTimer, false, now), now);
  }

  lemma {:induction false} CloseIsHealthy(s: State, m: Membership, stamp: Time, removeTimer: bool, now: Time)
    requires !s.down && m.available.Some?
    ensures var (s1, e) := CloseOffer(s, m, stamp, removeTimer, now);
      s1.clock == s.clock && (s.faults.Healthy? ==> e.Finished? && s1.faults.Healthy?)
  {
  }

  lemma {:induction false} EndOfferGoesOn(s: State, m: Membership, stamp: Time, removeTimer: bool, now: Time)
    requires m.available.Some?
    ensures var (s1, e) := CloseOffer(s, m, stamp, removeTimer, now);
      s1.clock == s.clock
      && EndOffer(s, m, stamp, removeTimer, false, now)
         == if e.Finished? then (AdvanceQueue(s1, now).0, Replied(AdvanceQueue(s1, now).1, Ok)) else (s1, Replied(e, Ok))
  {
  }

  // A right that somebody ends.
  lemma {:induction false} RightIsReleased(s: State, u: UserId, removeTimer: bool, now: Time) returns (s1: State)
    requires InvAt(s, now) && !s.down && now > s.clock && u in s.cache.members && s.cache.members[u].status.RightActive?
    ensures var m := s.cache.members[u];
      Ends(s, s1, m, now, removeTimer, ExpireActiveRight(s, m, now, removeTimer, now), true, now)
  {
    var m := s.cache.members[u];
    Lookup(s, u, now);
    var e;
    s1, e := ExpiredHolderIsOut(s, u, now, removeTimer, now);
    RightNamesItself(s, m, now);
    RightEnds(s, s1, e, m, removeTimer, now);
  }

  lemma {:induction false} RightEnds(s: State, s1: State, e: Ended, m: Membership, removeTimer: bool, now: Time)
    requires Cached(s, m) && m.status.RightActive? && InvAt(s1, now) && now > s.clock
    requires s.db.rights[m.token.value].token == m.token.value
    requires var tx := ExpireRight(s.db, m.token.value, m.Settled(Declined, now), now);
      tx.TxResult? && tx.transitioned && (s1, e) == ExpireHeld(s, m, tx.db, tx.right, now, removeTimer, now)
    ensures Ends(s, s1, m, now, removeTimer, ExpireActiveRight(s, m, now, removeTimer, now), true, now)
  {
    ExpiryWins(s, m, now, now);
    if e.Finished? {
      ExpiryIsExact(s, m, ExpireRight(s.db, m.token.value, m.Settled(Declined, now), now).db, removeTimer, now);
    }
    ExpiryGoesOn(s, m, removeTimer, now);
    ExpiryIsHealthy(s, m, removeTimer, now);
    ThenAdvances(s, s1, e, m, now, removeTimer, ExpireActiveRight(s, m, now, removeTimer, now), now);
  }

  lemma {:induction false} RightNamesItself(s: State, m: Membership, now: Time)
    requires InvAt(s, now) && Cached(s, m) && m.status.RightActive?
    ensures m.token.Some? && m.token.value in s.db.rights && s.db.rights[m.token.value].token == m.token.value
  {
  }

  lemma {:induction false} ExpiryIsHealthy(s: State, m: Membership, removeTimer: bool, now: Time)
    requires !s.down && m.token.Some?
    requires ExpireRight(s.db, m.token.value, m.Settled(Declined, now), now).TxResult?
    ensures var tx := ExpireRight(s.db, m.token.value, m.Settled(Declined, now), now);
      var (s1, e) := ExpireHeld(s, m, tx.db, tx.right, now, removeTimer, now);
      s1.clock == s.clock && (s.faults.Healthy? ==> e.Finished? && s1.faults.Healthy?)
  {
  }

  lemma {:induction false} ExpiryGoesOn(s: State, m: Membership, removeTimer: bool, now: Time)
    requires m.token.Some?
    requires var tx := ExpireRight(s.db, m.token.value, m.Settled(Declined, now), now); tx.TxResult? && tx.transitioned
    ensures var tx := ExpireRight(s.db, m.token.value, m.Settled(Declined, now), now);
      var (s1, e) := ExpireHeld(s, m, tx.db, tx.right, now, removeTimer, now);
      s1.clock == s.clock
      && ExpireActiveRight(s, m, now, removeTimer, now)
         == if e.Finished? then (AdvanceQueue(s1, now).0, Replied(AdvanceQueue(s1, now).1, Ok)) else (s1, Replied(e, Ok))
  {
  }

  // ---- Leaving ----

  // Who may leave: whoever waits or holds a right, and whoever is offered units; declining is
  // for the last only.
  predicate MayLeave(m: Membership, offerOnly: bool) {
    m.status.OfferPending? || (!offerOnly && (m.status.Queued? || m.status.RightActive?))
  }

  lemma {:induction false} LeaveIsRefused(s: State, u: UserId, offerOnly: bool, now: Time)
    requires u !in s.cache.members || IsLate(s.cache.members[u], now) || !MayLeave(s.cache.members[u], offerOnly)
    ensures LeaveQueue(s, u, offerOnly, now)
         == (s, Refused(if u !in s.cache.members then TokenNotFound
                        else if IsLate(s.cache.members[u], now) then TokenExpired else InvalidStatus))
  {
  }

  function Quits(s: State, m: Membership, stamp: Time, now: Time): (State, Reply) {
    (QuitQueue(s, m.Settled(Declined, stamp), now).0, Replied(QuitQueue(s, m.Settled(Declined, stamp), now).1, Ok))
  }

  // Which of the three endings a request takes.
  lemma {:induction false} LeaveGoesOn(s: State, u: UserId, offerOnly: bool, now: Time)
    requires u in s.cache.members && !IsLate(s.cache.members[u], now) && MayLeave(s.cache.members[u], offerOnly)
    requires s.cache.members[u].status.OfferPending? ==> s.cache.members[u].available.Some? && s.cache.members[u].available.value > 0
    ensures var m := s.cache.members[u];
      LeaveQueue(s, u, offerOnly, now)
      == match m.status
         case Queued => Quits(s, m, now, now)
         case OfferPending => EndOffer(s, m, now, true, false, now)
         case _ => ExpireActiveRight(s, m, now, true, now)
  {
  }

  lemma {:induction false} WaiterIsReleased(s: State, u: UserId, stamp: Time, now: Time) returns (s1: State)
    requires InvAt(s, now) && !s.down && now > s.clock && u in s.cache.members && s.cache.members[u].status.Queued?
    ensures var m := s.cache.members[u]; Ends(s, s1, m, stamp, false, Quits(s, m, stamp, now), false, now)
  {
    var m := s.cache.members[u];
    Lookup(s, u, now);
    QuitKeepsInv(s, u, stamp, now);
    s1 := QuitQueue(s, m.Settled(Declined, stamp), now).0;
    WaiterEnds(s, m, stamp, now);
  }

  lemma {:induction false} WaiterEnds(s: State, m: Membership, stamp: Time, now: Time)
    requires Cached(s, m) && m.status.Queued? && !s.down && InvAt(QuitQueue(s, m.Settled(Declined, stamp), now).0, now)
    ensures var s1 := QuitQueue(s, m.Settled(Declined, stamp), now).0;
      Ends(s, s1, m, stamp, false, Quits(s, m, stamp, now), false, now)
  {
    QuitEnds(s, m, stamp, now);
    if QuitQueue(s, m.Settled(Declined, stamp), now).1.Finished? {
      QuitIsExact(s, m, stamp, now);
    }
  }

  lemma {:induction false} QuitEnds(s: State, m: Membership, stamp: Time, now: Time)
    ensures var (s1, e) := QuitQueue(s, m.Settled(Declined, stamp), now);
      s1.clock == s.clock && (s.faults.Healthy? ==> e.Finished?)
  {
  }

  // The transition when it succeeds: s1 is when it is done, and but for those who only waited
  // the queue advances from there.
  lemma {:induction false} LeaverIsReleased(s: State, u: UserId, offerOnly: bool, now: Time) returns (s1: State)
    requires InvAt(s, now) && !s.down && now > s.clock && u in s.db.members
    requires !IsLate(s.db.members[u], now) && MayLeave(s.db.members[u], offerOnly)
    ensures var (m, waits) := (s.db.members[u], s.db.members[u].status.Queued?);
      Ends(s, s1, m, now, !waits, LeaveQueue(s, u, offerOnly, now), !waits, now)
  {
    LeaverSeen(s, u, offerOnly, now);
    s1 := CachedLeaverIsReleased(s, u, offerOnly, now);
  }

  lemma {:induction false} LeaverSeen(s: State, u: UserId, offerOnly: bool, now: Time)
    requires InvAt(s, now) && !s.down && u in s.db.members && MayLeave(s.db.members[u], offerOnly)
    ensures u in s.cache.members && s.cache.members[u] == s.db.members[u]
    ensures var m := s.cache.members[u]; m.status.OfferPending? ==> m.available.Some? && m.available.value > 0
  {
    RowSeen(s, u, now);
  }

  lemma {:induction false} CachedLeaverIsReleased(s: State, u: UserId, offerOnly: bool, now: Time) returns (s1: State)
    requires InvAt(s, now) && !s.down && now > s.clock && u in s.cache.members
    requires !IsLate(s.cache.members[u], now) && MayLeave(s.cache.members[u], offerOnly)
    requires s.cache.members[u].status.OfferPending? ==> s.cache.members[u].available.Some? && s.cache.members[u].available.value > 0
    ensures var (m, waits) := (s.cache.members[u], s.cache.members[u].status.Queued?);
      Ends(s, s1, m, now, !waits, LeaveQueue(s, u, offerOnly, now), !waits, now)
  {
    LeaveGoesOn(s, u, offerOnly, now);
    if s.cache.members[u].status.Queued? {
      s1 := WaiterIsReleased(s, u, now, now);
    } else if s.cache.members[u].status.OfferPending? {
      s1 := OfferIsReleased(s, u, now, true, now);
    } else {
      s1 := RightIsReleased(s, u, true, now);
    }
  }

  // Which reply a request to leave or decline gets. Without a failing write there is no other.
  lemma {:induction false} LeaveRepliesIff(s: State, u: UserId, offerOnly: bool, now: Time)
    requires InvAt(s, now) && !s.down && now > s.clock
    ensures var reply := LeaveQueue(s, u, offerOnly, now).1;
      && (reply == Refused(TokenNotFound) <==> u !in s.db.members)
      && (u in s.db.members ==>
            var m := s.db.members[u];
            && (reply == Refused(TokenExpired) <==> IsLate(m, now))
            && (reply == Refused(InvalidStatus) <==> !IsLate(m, now) && !MayLeave(m, offerOnly))
            && (s.faults.Healthy? ==> (reply == Ok <==> !IsLate(m, now) && MayLeave(m, offerOnly))))
  {
    RowSeen(s, u, now);
    if u in s.db.members && !IsLate(s.db.members[u], now) && MayLeave(s.db.members[u], offerOnly) {
      var s1 := LeaverIsReleased(s, u, offerOnly, now);
    } else {
      LeaveIsRefused(s, u, offerOnly, now);
    }
  }

  // Out of both stores: DECLINED, without a place, a slot or a right.
  predicate IsOut(s: State, u: UserId) {
    && u in s.db.members && s.db.members[u].status.Declined? && s.db.members[u].token.None?
    && u in s.cache.members && s.cache.members[u].status.Declined? && s.cache.members[u].token.None?
    && u !in Users(s.cache.queue) && u !in s.cache.index && u !in s.cache.slots
    && forall t :: t in s.db.rights && s.db.rights[t].user == u ==> !s.db.rights[t].status.Active?
  }

  lemma {:induction false} DeclinedIsOut(s: State, u: UserId, now: Time)
    requires InvAt(s, now) && !s.down && u in s.db.members && s.db.members[u].status.Declined?
    ensures IsOut(s, u)
  {
    assert MemberShape(s.db.members[u], s.db.rights, s.cfg);
    assert s.cache.members[u].SameUpToStamp(s.db.members[u]);
    assert u !in QueuedUsers(s.cache.members) && u !in LiveUsers(s.cache.members);
  }

  lemma {:induction false} StaysOut(s1: State, s': State, u: UserId, now: Time)
    requires InvAt(s1, now) && !s1.down && now > s1.clock && u in s1.db.members && s1.db.members[u].status.Declined?
    requires s' == s1 || (s' == AdvanceQueue(s1, now).0 && !s'.down)
    ensures IsOut(s', u)
  {
    if s' != s1 {
      AdvanceLeavesOthers(s1, u, now);
      AdvanceKeepsInv(s1, now);
    }
    DeclinedIsOut(s', u, now);
  }

  // Success means that the user is out, that its right has expired, and that its units were in
  // the pool when the queue advanced.
  lemma {:induction false} LeaveIsExact(s: State, u: UserId, offerOnly: bool, now: Time) returns (s1: State)
    requires InvAt(s, now) && !s.down && now > s.clock && LeaveQueue(s, u, offerOnly, now).1 == Ok
    ensures u in s.db.members && MayLeave(s.db.members[u], offerOnly)
    ensures var (m, s') := (s.db.members[u], LeaveQueue(s, u, offerOnly, now).0);
      && Released(s, s1, m, now, now) && InvAt(s1, now)
      && s1.cache.timers == TimersLeft(s.cache.timers, u, !m.status.Queued?)
      && s' == (if m.status.Queued? then s1 else AdvanceQueue(s1, now).0)
      && IsOut(s', u)
  {
    LeaveRepliesIff(s, u, offerOnly, now);
    s1 := LeaverIsReleased(s, u, offerOnly, now);
    LeaveEndsUp(s, u, offerOnly, now);
    StaysOut(s1, LeaveQueue(s, u, offerOnly, now).0, u, now);
  }

  lemma {:induction false} LeaveEndsUp(s: State, u: UserId, offerOnly: bool, now: Time)
    requires !s.down && LeaveQueue(s, u, offerOnly, now).1 == Ok
    ensures !LeaveQueue(s, u, offerOnly, now).0.down
  {
  }
}
