/** What handling one claimed timer comes to, for its user and for everybody else. */
module HandleOutcome {
  import opened Models
  import opened CacheScripts
  import opened DurableTx
  import opened Service
  import opened Invariants
  import opened Advance
  import opened Operations
  import opened Expiry
  import opened Progress
  import opened Frames
  import opened Absence
  import opened LeaveOutcome
  import T = Timers

  // ---- Each kind of claim ----

  datatype Kind = Nobody | Over | Stale | Present | Absent | Deadline

  function KindOf(s: State, c: T.Claim): Kind {
    if c.user !in s.db.members then Nobody else
      var m := s.db.members[c.user];
      if m.status.IsTerminal() then Over
      else if c.deadline * MILLIS < m.updatedAt then Stale
      else if !m.status.Queued? then Deadline
      else if c.user in s.cache.presence && c.pass < s.cache.presence[c.user] * MILLIS then Present
      else Absent
  }

  function WithTimer(s: State, u: UserId, deadline: Second): State {
    s.(cache := s.cache.(timers := T.Add(s.cache.timers, u, deadline)))
  }

  lemma {:induction false} KindIsKnown(s: State, c: T.Claim, now: Time)
    requires InvAt(s, now) && !s.down
    ensures c.user in s.cache.members <==> c.user in s.db.members
    ensures c.user in s.db.members ==>
      var (m, k) := (s.cache.members[c.user], KindOf(s, c));
      && m.user == c.user && (m.IsLive() <==> !k.Over?) && (m.IsLive() ==> m == s.db.members[c.user])
      && (m.IsLive() ==> !m.status.UnknownMembershipStatus? && (m.IsTimed() <==> m.expiresAt.Some?) && (m.IsTimed() <==> !m.status.Queued?))
      && (m.IsLive() ==> (IsStale(c, m) <==> k.Stale?))
  {
    if c.user in s.db.members {
      assert MemberShape(s.db.members[c.user], s.db.rights, s.cfg);
      assert s.cache.members[c.user].SameUpToStamp(s.db.members[c.user]);
    }
  }

  // Who has no membership any more, and whose timer is only looked at: a claim of an older
  // lifecycle gives the current one a timer again, and a sign of life moves the timer to it.
  lemma {:induction false} IdleClaims(s: State, c: T.Claim, now: Time)
    requires InvAt(s, now) && !s.down
    ensures var (k, r) := (KindOf(s, c), HandleExpired(s, c, now));
      && (k.Nobody? ==> r == (s, Refused(TokenNotFound)))
      && (k.Over? ==> r == (s, Ok))
      && (k.Stale? ==>
            var m := s.db.members[c.user];
            r == (WithTimer(s, c.user, Seconds(if m.expiresAt.Some? then m.expiresAt.value else c.pass + s.cfg.presenceTimeout)), Ok))
      && (k.Present? ==> r == (WithTimer(s, c.user, s.cache.presence[c.user]), Ok))
  {
    KindIsKnown(s, c, now);
    if c.user in s.db.members {
      HandleExpiredUnfolds(s, c, now);
      if KindOf(s, c).Present? {
        assert Seconds(s.cache.presence[c.user] * MILLIS) == s.cache.presence[c.user];
      }
    }
  }

  // A current claim on somebody absent, or on an offer or a right, ends the membership. Only an
  // offer and a right free units, for which the queue advances; the timer has been taken already.
  lemma {:induction false} EndingClaims(s: State, c: T.Claim, now: Time) returns (s1: State)
    requires InvAt(s, now) && !s.down && now > s.clock && (KindOf(s, c).Absent? || KindOf(s, c).Deadline?)
    ensures var m := s.db.members[c.user];
      Ends(s, s1, m, if m.status.RightActive? then now else c.pass, false, HandleExpired(s, c, now), KindOf(s, c).Deadline?, now)
  {
    KindIsKnown(s, c, now);
    HandleExpiredUnfolds(s, c, now);
    var m := s.cache.members[c.user];
    if m.status.Queued? {
      QuitKeepsInv(s, c.user, c.pass, now);
      s1 := WaiterIsReleased(s, c.user, c.pass, now);
    } else if m.status.RightActive? {
      HandlesRight(s, c.user, now);
      s1 := RightIsReleased(s, c.user, false, now);
    } else {
      s1 := OfferIsReleased(s, c.user, c.pass, false, now);
    }
  }

  // ---- Its user ----

  // Out of the queue, without a new timer.
  predicate IsSettled(s: State, s': State, u: UserId) {
    u in s'.db.members && !Queues(s'.db, u) && LeavesTimer(s, s', u)
  }

  lemma {:induction false} StaysSettled(s: State, s1: State, s2: State, u: UserId, now: Time)
    requires InvAt(s1, now) && now > s1.clock && AdvancedOrNot(s1, s2, now) && IsSettled(s, s1, u)
    ensures IsSettled(s, s2, u)
  {
    if s2 != s1 {
      AdvanceLeavesOthers(s1, u, now);
    }
    ThenAdvanceLeavesTimer(s, s1, s2, u, now);
  }

  lemma {:induction false} ClosedIsSettled(s: State, m: Membership, stamp: Time, now: Time)
    requires Cached(s, m) && m.status.OfferPending?
    ensures IsSettled(s, CloseOffer(s, m, stamp, false, now).0, m.user)
  {
  }

  lemma {:induction false} ExpiredIsSettled(s: State, m: Membership, after: Durable, right: Right, stamp: Time, now: Time)
    requires Cached(s, m) && m.status.RightActive? && m.user in after.members && !Queues(after, m.user)
    ensures IsSettled(s, ExpireHeld(s, m, after, right, stamp, false, now).0, m.user)
  {
  }

  lemma {:induction false} OfferIsSettled(s: State, u: UserId, stamp: Time, now: Time)
    requires InvAt(s, now) && !s.down && now > s.clock && u in s.cache.members && s.cache.members[u].status.OfferPending?
    ensures s.cache.members[u].available.Some? && IsSettled(s, EndOffer(s, s.cache.members[u], stamp, false, false, now).0, u)
  {
    var m := s.cache.members[u];
    Lookup(s, u, now);
    CloseOfferKeepsInv(s, u, stamp, false, now);
    ClosedIsSettled(s, m, stamp, now);
    EndOfferUnfolds(s, m, stamp, false, false, now);
    StaysSettled(s, CloseOffer(s, m, stamp, false, now).0, EndOffer(s, m, stamp, false, false, now).0, u, now);
  }

  lemma {:induction false} RightIsSettled(s: State, u: UserId, now: Time)
    requires InvAt(s, now) && !s.down && now > s.clock && u in s.cache.members && s.cache.members[u].status.RightActive?
    ensures IsSettled(s, ExpireActiveRight(s, s.cache.members[u], now, false, now).0, u)
  {
    var m := s.cache.members[u];
    Lookup(s, u, now);
    var s1, e := ExpiredHolderIsOut(s, u, now, false, now);
    ExpiryWins(s, m, now, now);
    var tx := ExpireRight(s.db, m.token.value, m.Settled(Declined, now), now);
    ExpiredIsSettled(s, m, tx.db, tx.right, now, now);
    ExpireUnfolds(s, m, now, false, now);
    StaysSettled(s, s1, ExpireActiveRight(s, m, now, false, now).0, u, now);
  }

  // The worker never queues the user of an offer or a right again, nor sets its timer.
  lemma {:induction false} DeadlineSettles(s: State, c: T.Claim, now: Time)
    requires InvAt(s, now) && !s.down && now > s.clock && KindOf(s, c).Deadline?
    ensures IsSettled(s, HandleExpired(s, c, now).0, c.user)
  {
    KindIsKnown(s, c, now);
    HandleExpiredUnfolds(s, c, now);
    if s.cache.members[c.user].status.RightActive? {
      HandlesRight(s, c.user, now);
      RightIsSettled(s, c.user, now);
    } else {
      OfferIsSettled(s, c.user, c.pass, now);
    }
  }

  lemma {:induction false} QuitLeavesOwnTimer(s: State, final: Membership, now: Time)
    requires final.status.Declined? && final.expiresAt.None?
    ensures LeavesTimer(s, QuitQueue(s, final, now).0, final.user)
  {
  }

  lemma {:induction false} AbsentLeavesTimer(s: State, c: T.Claim, now: Time)
    requires InvAt(s, now) && !s.down && KindOf(s, c).Absent?
    ensures LeavesTimer(s, HandleExpired(s, c, now).0, c.user)
  {
    KindIsKnown(s, c, now);
    Lookup(s, c.user, now);
    HandleExpiredUnfolds(s, c, now);
    QuitLeavesOwnTimer(s, s.cache.members[c.user].(status := Declined, updatedAt := c.pass), now);
  }

  // A claim puts its user in the queue never, and in the schedule only with success.
  lemma {:induction false} OwnClaim(s: State, c: T.Claim, now: Time)
    requires InvAt(s, now) && !s.down && now > s.clock
    ensures var (s', reply) := HandleExpired(s, c, now);
      && (Queues(s'.db, c.user) ==> Queues(s.db, c.user))
      && (reply.Refused? || KindOf(s, c).Deadline? ==> LeavesTimer(s, s', c.user))
  {
    IdleClaims(s, c, now);
    if KindOf(s, c).Deadline? {
      DeadlineSettles(s, c, now);
    } else if KindOf(s, c).Absent? {
      AbsentLeavesTimer(s, c, now);
    }
  }

  // ---- Anybody ----

  // Nobody gets a place in the queue, and whoever keeps one keeps its row.
  predicate KeepsOut(s: State, s': State, u: UserId) {
    Queues(s'.db, u) ==> Queues(s.db, u) && s'.db.members[u] == s.db.members[u]
  }

  // Nobody gets a timer but those whose wait is over.
  predicate KeepsTimer(s: State, s': State, u: UserId) {
    LeavesTimer(s, s', u) || (Queues(s.db, u) && !Queues(s'.db, u))
  }

  // Whoever has no place keeps what it has.
  predicate KeepsRow(s: State, s': State, u: UserId) {
    u in s.db.members && !Queues(s.db, u) ==> u in s'.db.members && s'.db.members[u] == s.db.members[u]
  }

  lemma {:induction false} ClaimKeepsOut(s: State, c: T.Claim, u: UserId, now: Time)
    requires InvAt(s, now) && !s.down && now > s.clock
    ensures KeepsOut(s, HandleClaim(s, c, now), u)
  {
    HandleProgresses(s, c, now);
    FilingKeepsRows(s, c, now);
    if c.user == u {
      OwnClaim(s, c, now);
    }
  }

  lemma {:induction false} ClaimKeepsOthers(s: State, c: T.Claim, u: UserId, now: Time)
    requires InvAt(s, now) && !s.down && now > s.clock && c.user != u
    ensures KeepsRow(s, HandleClaim(s, c, now), u)
  {
    HandleProgresses(s, c, now);
  }

  lemma {:induction false} FilingKeepsTimers(s: State, c: T.Claim, now: Time)
    ensures HandleClaim(s, c, now).cache == HandleExpired(s, c, now).0.cache
    ensures HandleClaim(s, c, now).down == HandleExpired(s, c, now).0.down
    ensures HandleClaim(s, c, now).cache.presence == s.cache.presence
  {
    HandleFrame(s, c, now);
  }

  lemma {:induction false} ClaimKeepsTimer(s: State, c: T.Claim, u: UserId, now: Time)
    requires InvAt(s, now) && !s.down && now > s.clock
    requires c.user == u ==> HandleExpired(s, c, now).1.Refused? || KindOf(s, c).Deadline?
    ensures KeepsTimer(s, HandleClaim(s, c, now), u)
  {
    FilingKeepsRows(s, c, now);
    FilingKeepsTimers(s, c, now);
    if c.user == u {
      OwnClaim(s, c, now);
    } else if Queues(s.db, u) ==> Queues(HandleClaim(s, c, now).db, u) {
      HandleLeavesTimer(s, c, u, now);
    }
  }

  // Without a failing write the process goes on, and no claim on a membership fails.
  lemma {:induction false} HealthyClaim(s: State, c: T.Claim, now: Time)
    requires InvAt(s, now) && !s.down && now > s.clock && s.faults.Healthy?
    ensures !HandleClaim(s, c, now).down
    ensures c.user in s.db.members ==> HandleExpired(s, c, now).1 == Ok
  {
    IdleClaims(s, c, now);
    if KindOf(s, c).Deadline? || KindOf(s, c).Absent? {
      var s1 := EndingClaims(s, c, now);
    }
    HandleExpiredHandles(s, c, now);
  }
}
