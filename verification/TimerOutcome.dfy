/** What the timer scripts come to, timer by timer. */
module TimerOutcome {
  import opened Models
  import opened Timers
  import L = LeaseProtocol

  // ---- Looking at timers ----

  // Due in the schedule, or left behind by a worker whose lease is over.
  predicate NeedsALook(t: Timers, u: UserId, now: Time) {
    if u in t.scheduled then t.scheduled[u] <= Seconds(now) else u in t.processing && t.processing[u] <= now
  }

  function DeadlineOf(t: Timers, u: UserId): Second {
    if u in t.scheduled then t.scheduled[u] else if u in t.deadlines then t.deadlines[u] else 0
  }

  function OverdueUsers(t: Timers, now: Time): set<UserId> {
    set u | u in t.scheduled.Keys + t.processing.Keys && NeedsALook(t, u, now)
  }

  // As many as the limit allows, and nobody who is not looked at is due earlier.
  predicate LooksAt(t: Timers, now: Time, limit: nat, taken: set<UserId>) {
    && taken <= OverdueUsers(t, now)
    && |taken| == (if |OverdueUsers(t, now)| < limit then |OverdueUsers(t, now)| else limit)
    && forall u, v :: u in taken && v in OverdueUsers(t, now) - taken ==> DeadlineOf(t, u) <= DeadlineOf(t, v)
  }

  lemma {:induction false} PartOfEqualSize<T>(a: set<T>, b: set<T>)
    requires a <= b
    ensures |a| <= |b| && (|a| == |b| ==> a == b)
    decreases |b|
  {
    if a != {} {
      var x :| x in a;
      PartOfEqualSize(a - {x}, b - {x});
      assert a == (a - {x}) + {x} && b == (b - {x}) + {x};
    }
  }

  // A limit that covers what is due leaves nobody out.
  lemma {:induction false} LooksAtAll(t: Timers, now: Time, limit: nat, taken: set<UserId>)
    requires LooksAt(t, now, limit, taken) && limit >= |OverdueUsers(t, now)|
    ensures taken == OverdueUsers(t, now)
  {
    PartOfEqualSize(taken, OverdueUsers(t, now));
  }

  // A timer in processing is claimed after its deadline.
  predicate ClaimedLate(t: Timers) {
    t.deadlines.Keys == t.processing.Keys && forall u :: u in t.processing ==> t.deadlines[u] * MILLIS <= t.processing[u]
  }

  function ClaimFor(t: Timers, u: UserId, now: Time): Claim {
    Claim(u, DeadlineOf(t, u), now + LEASE, now)
  }

  lemma {:induction false} RescuedAreDue(t: Timers, u: UserId, now: Time)
    requires ClaimedLate(t)
    ensures IsDue(Reclaim(t, now), u, now) <==> u in OverdueUsers(t, now)
    ensures u in OverdueUsers(t, now) ==> Reclaim(t, now).scheduled[u] == DeadlineOf(t, u)
  {
  }

  // The timers after somebody was looked at: they are in processing under one lease, and of the
  // others only those whose lease has not ended.
  ghost predicate Leased(t: Timers, t': Timers, taken: set<UserId>, now: Time) {
    && (forall u :: u in t'.processing <==> u in taken || (u in t.processing && t.processing[u] > now))
    && (forall u :: u in t'.processing ==> t'.processing[u] == if u in taken then now + LEASE else t.processing[u])
    && (forall u :: u in taken ==> u !in t'.scheduled)
    && (forall u :: u in t.scheduled && u !in taken ==> u in t'.scheduled && t'.scheduled[u] == t.scheduled[u])
  }

  predicate ClaimsOn(t: Timers, taken: set<UserId>, batch: seq<Claim>, now: Time) {
    && (forall c :: c in batch ==> c.user in taken && c == ClaimFor(t, c.user, now))
    && (forall u :: u in taken ==> ClaimFor(t, u, now) in batch)
  }

  lemma {:induction false} TakenAreLeased(t: Timers, taken: set<UserId>, now: Time)
    requires taken <= Reclaim(t, now).scheduled.Keys
    ensures Leased(t, L.TakeAll(Reclaim(t, now), taken, now + LEASE), taken, now)
  {
  }

  lemma {:induction false} TakenAreClaimed(t: Timers, taken: set<UserId>, batch: seq<Claim>, now: Time)
    requires ClaimedLate(t) && taken <= OverdueUsers(t, now) && L.AreClaims(Reclaim(t, now), taken, batch, now)
    ensures ClaimsOn(t, taken, batch, now)
  {
    forall u | u in taken
      ensures L.ClaimOn(Reclaim(t, now), u, now) == ClaimFor(t, u, now)
    {
      RescuedAreDue(t, u, now);
    }
  }

  lemma {:induction false} RestIsLater(t: Timers, taken: set<UserId>, t': Timers, batch: seq<Claim>, now: Time)
    requires ClaimedLate(t) && taken <= Reclaim(t, now).scheduled.Keys && t' == L.TakeAll(Reclaim(t, now), taken, now + LEASE)
    requires ClaimsOn(t, taken, batch, now) && L.Earliest(batch, t')
    ensures forall u, v :: u in taken && v in OverdueUsers(t, now) - taken ==> DeadlineOf(t, u) <= DeadlineOf(t, v)
  {
    forall u, v | u in taken && v in OverdueUsers(t, now) - taken
      ensures DeadlineOf(t, u) <= DeadlineOf(t, v)
    {
      RescuedAreDue(t, v, now);
      assert ClaimFor(t, u, now) in batch && v in t'.scheduled;
    }
  }

  lemma {:induction false} TakenAreOverdue(t: Timers, taken: set<UserId>, now: Time)
    requires ClaimedLate(t) && forall u :: u in taken ==> IsDue(Reclaim(t, now), u, now)
    ensures taken <= OverdueUsers(t, now)
  {
    forall u | u in taken
      ensures u in OverdueUsers(t, now)
    {
      RescuedAreDue(t, u, now);
    }
  }

  lemma {:induction false} NobodyIsLeft(t: Timers, taken: set<UserId>, t': Timers, now: Time)
    requires ClaimedLate(t) && taken <= Reclaim(t, now).scheduled.Keys && t' == L.TakeAll(Reclaim(t, now), taken, now + LEASE)
    requires L.NothingDue(t', now)
    ensures OverdueUsers(t, now) <= taken
  {
    forall u | u in OverdueUsers(t, now)
      ensures u in taken
    {
      RescuedAreDue(t, u, now);
      assert u in taken || (u in t'.scheduled && IsDue(t', u, now));
    }
  }

  lemma {:induction false} AsManyAsPossible(all: set<UserId>, taken: set<UserId>, limit: nat)
    requires taken <= all && |taken| <= limit && (|taken| < limit ==> all <= taken)
    ensures |taken| == if |all| < limit then |all| else limit
  {
    PartOfEqualSize(taken, all);
    if |taken| < limit {
      assert taken == all;
    }
  }

  // Reclaiming and then claiming looks at whatever is due or abandoned, earliest first.
  lemma {:induction false} WhomAPassTakes(t: Timers, now: Time, limit: nat, t': Timers, batch: seq<Claim>) returns (taken: set<UserId>)
    requires ClaimedLate(t) && (t', batch) == ClaimDue(Reclaim(t, now), now, limit)
    ensures LooksAt(t, now, limit, taken) && Leased(t, t', taken, now)
    ensures ClaimsOn(t, taken, batch, now) && L.InClaimOrder(batch) && |batch| <= limit
  {
    taken := L.BatchIsDue(Reclaim(t, now), now, limit, t', batch);
    BatchLooksAt(t, now, limit, t', batch, taken);
  }

  lemma {:induction false} BatchLooksAt(t: Timers, now: Time, limit: nat, t': Timers, batch: seq<Claim>, taken: set<UserId>)
    requires ClaimedLate(t) && L.IsBatch(Reclaim(t, now), taken, t', batch, now, limit) && L.Earliest(batch, t')
    ensures LooksAt(t, now, limit, taken) && Leased(t, t', taken, now) && ClaimsOn(t, taken, batch, now)
  {
    TakenAreOverdue(t, taken, now);
    TakenAreLeased(t, taken, now);
    TakenAreClaimed(t, taken, batch, now);
    RestIsLater(t, taken, t', batch, now);
    if |batch| < limit {
      NobodyIsLeft(t, taken, t', now);
    }
    AsManyAsPossible(OverdueUsers(t, now), taken, limit);
  }

  // ---- Acknowledging and returning ----

  predicate HasClaim(t: Timers, claims: seq<Claim>, u: UserId) {
    exists c :: c in claims && c.user == u && HoldsLease(t, c)
  }

  // The timers that the claims still hold are out of processing, and nothing else changes there.
  ghost predicate Freed(t: Timers, t': Timers, claims: seq<Claim>) {
    && (forall u :: u in t'.processing <==> u in t.processing && !HasClaim(t, claims, u))
    && (forall u :: u in t'.processing ==> t'.processing[u] == t.processing[u])
  }

  lemma {:induction false} FreesFirst(t: Timers, t1: Timers, t': Timers, claims: seq<Claim>)
    requires claims != [] && Freed(t, t1, claims[..1]) && Freed(t1, t', claims[1..])
    ensures Freed(t, t', claims)
  {
    assert claims == claims[..1] + claims[1..];
    forall u
      ensures u in t'.processing <==> u in t.processing && !HasClaim(t, claims, u)
    {
      assert HasClaim(t, claims, u) <==> HasClaim(t, claims[..1], u) || HasClaim(t, claims[1..], u) by {
        assert forall c :: c in claims <==> c in claims[..1] || c in claims[1..];
      }
      if u in t1.processing {
        assert HasClaim(t1, claims[1..], u) <==> HasClaim(t, claims[1..], u);
      }
    }
  }

  lemma {:induction false} AckOneFrees(t: Timers, c: Claim)
    ensures Freed(t, AckOne(t, c), [c]) && Freed(t, NackOne(t, c), [c])
  {
    assert c in [c];
  }

  // An acknowledgement forgets the claims and leaves the schedule alone.
  lemma {:induction false} AckFrees(t: Timers, claims: seq<Claim>)
    ensures Freed(t, Ack(t, claims), claims) && Ack(t, claims).scheduled == t.scheduled
    decreases |claims|
  {
    if claims != [] {
      AckOneFrees(t, claims[0]);
      assert claims[..1] == [claims[0]];
      AckFrees(AckOne(t, claims[0]), claims[1..]);
      FreesFirst(t, AckOne(t, claims[0]), Ack(t, claims), claims);
    }
  }

  // Returned timers are due again a little after their pass, unless there is a newer one.
  ghost predicate Returned(t: Timers, t': Timers, claims: seq<Claim>, retry: Second) {
    && (forall u :: u in t'.scheduled <==> u in t.scheduled || HasClaim(t, claims, u))
    && (forall u :: u in t'.scheduled ==> t'.scheduled[u] == if u in t.scheduled then t.scheduled[u] else retry)
  }

  lemma {:induction false} ReturnsFirst(t: Timers, t1: Timers, t': Timers, claims: seq<Claim>, retry: Second)
    requires claims != [] && Freed(t, t1, claims[..1])
    requires Returned(t, t1, claims[..1], retry) && Returned(t1, t', claims[1..], retry)
    ensures Returned(t, t', claims, retry)
  {
    assert claims == claims[..1] + claims[1..];
    forall u
      ensures u in t'.scheduled <==> u in t.scheduled || HasClaim(t, claims, u)
    {
      assert HasClaim(t, claims, u) <==> HasClaim(t, claims[..1], u) || HasClaim(t, claims[1..], u) by {
        assert forall c :: c in claims <==> c in claims[..1] || c in claims[1..];
      }
      assert HasClaim(t1, claims[1..], u) ==> HasClaim(t, claims[1..], u);
      if u !in t1.scheduled && u in t.processing {
        assert HasClaim(t, claims[1..], u) ==> HasClaim(t1, claims[1..], u);
      }
    }
  }

  lemma {:induction false} NackOneReturns(t: Timers, c: Claim)
    ensures Returned(t, NackOne(t, c), [c], Seconds(c.pass + RETRY_DELAY))
  {
    assert c in [c];
  }

  lemma {:induction false} NackFrees(t: Timers, claims: seq<Claim>, pass: Time)
    requires forall c :: c in claims ==> c.pass == pass
    ensures Freed(t, Nack(t, claims), claims) && Returned(t, Nack(t, claims), claims, Seconds(pass + RETRY_DELAY))
    decreases |claims|
  {
    if claims != [] {
      AckOneFrees(t, claims[0]);
      NackOneReturns(t, claims[0]);
      assert claims[..1] == [claims[0]];
      NackFrees(NackOne(t, claims[0]), claims[1..], pass);
      FreesFirst(t, NackOne(t, claims[0]), Nack(t, claims), claims);
      ReturnsFirst(t, NackOne(t, claims[0]), Nack(t, claims), claims, Seconds(pass + RETRY_DELAY));
    }
  }

  // ---- Setting ----

  // A timer that is there never moves back, and none is made.
  lemma {:induction false} RefreshOnlyDelays(t: Timers, u: UserId, deadline: Second)
    ensures var t' := Refresh(t, u, deadline);
      && t'.scheduled.Keys == t.scheduled.Keys && t'.processing == t.processing && t'.deadlines == t.deadlines
      && (forall v :: v in t.scheduled ==>
            t'.scheduled[v] == if v == u && deadline > t.scheduled[v] then deadline else t.scheduled[v])
  {
    assert u in t.scheduled ==> t.scheduled.Keys + {u} == t.scheduled.Keys;
  }
}
