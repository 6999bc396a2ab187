/**
What one pass of the expiration worker comes to: whom it looks at, whose membership is over
afterwards, and where the timers are.
*/
module PassOutcome {
  import opened Models
  import opened CacheScripts
  import opened DurableTx
  import opened Service
  import opened Invariants
  import opened Expiry
  import opened System
  import opened Progress
  import opened Frames
  import opened HandleOutcome
  import opened ExpirationPass
  import opened TimerOutcome
  import T = Timers
  import L = LeaseProtocol
  import O = Overdue
  import opened BatchOutcome

  // ---- The whole pass ----

  lemma {:induction false} ClaimsAreLate(s: State, now: Time)
    requires InvAt(s, now) && !s.down
    ensures ClaimedLate(s.cache.timers)
  {
  }

  lemma {:induction false} OrderedIsOnePerUser(claims: seq<T.Claim>)
    requires L.InClaimOrder(claims)
    ensures OnePerUser(claims) && Distinct(claims)
  {
  }

  // The timers are taken, and the batch is about to be handled.
  ghost predicate Begun(s: State, claimed: State, claims: seq<T.Claim>, taken: set<UserId>, pass: Time) {
    && claimed.db == s.db && claimed.cfg == s.cfg && claimed.cache.presence == s.cache.presence && !claimed.down
    && Leased(s.cache.timers, claimed.cache.timers, taken, pass)
    && ClaimsOn(s.cache.timers, taken, claims, pass) && OnePerUser(claims)
  }

  ghost predicate BeginsAt(s: State, pass: Time, limit: nat, moments: seq<Moment>, end: Time) {
    Inv(s) && !s.down && pass > s.clock && |moments| >= limit && Ascending(pass, moments, end) && end > pass
  }

  lemma {:induction false} PassBegins(s: State, pass: Time, limit: nat, moments: seq<Moment>, end: Time)
    returns (claimed: State, claims: seq<T.Claim>, taken: set<UserId>)
    requires BeginsAt(s, pass, limit, moments, end)
    ensures LooksAt(s.cache.timers, pass, limit, taken) && Begun(s, claimed, claims, taken, pass)
    ensures Ready(claimed, claims, moments, pass + 1, end)
    ensures Pass(s, pass, limit, moments) == Acknowledge(HandleAll(claimed, claims, moments))
  {
    var rescued := WithTimers(s, T.Reclaim(s.cache.timers, pass));
    ReclaimKeepsInv(s, pass);
    claims := T.ClaimDue(rescued.cache.timers, pass, limit).1;
    ClaimsAreLate(s, s.clock);
    taken := WhomAPassTakes(s.cache.timers, pass, limit, T.ClaimDue(rescued.cache.timers, pass, limit).0, claims);
    OrderedIsOnePerUser(claims);
    ClaimTimersKeepsInv(rescued, limit, pass);
    claimed := ClaimTimers(rescued, limit, pass).(clock := pass);
    LaterStill(claimed, pass, pass + 1);
  }

  // Nothing that the pass took is left in processing, and no lease of another worker is lost.
  ghost predicate IsDone(t: T.Timers, t': T.Timers, taken: set<UserId>, pass: Time) {
    && (forall u :: u in t'.processing <==> u in t.processing && t.processing[u] > pass && u !in taken)
    && (forall u :: u in t'.processing ==> t'.processing[u] == t.processing[u])
  }

  function UsersOf(claims: seq<T.Claim>): set<UserId> {
    set c | c in claims :: c.user
  }

  // The timers of the handled and the failed claims, before and after they are filed.
  lemma {:induction false} FilesTimers(t: T.Timers, t0: T.Timers, t1: T.Timers, handled: seq<T.Claim>, failed: seq<T.Claim>, taken: set<UserId>, pass: Time)
    requires Leased(t, t0, taken, pass) && t1.processing == t0.processing
    requires (forall c :: c in handled || c in failed ==> c.user in taken && c == ClaimFor(t, c.user, pass))
    requires (forall u :: u in taken ==> ClaimFor(t, u, pass) in handled || ClaimFor(t, u, pass) in failed)
    ensures var t' := T.Nack(T.Ack(t1, handled), failed);
      && IsDone(t, t', taken, pass)
      && (forall u :: u in t1.scheduled ==> u in t'.scheduled && t'.scheduled[u] == t1.scheduled[u])
      && (forall u :: u in t'.scheduled && u !in t1.scheduled ==>
            u in UsersOf(failed) && t'.scheduled[u] == Seconds(pass + T.RETRY_DELAY))
      && (forall u :: u in UsersOf(failed) && u !in UsersOf(handled) ==> u in t'.scheduled)
  {
    var t2 := T.Ack(t1, handled);
    var t' := T.Nack(t2, failed);
    AckFrees(t1, handled);
    NackFrees(t2, failed, pass);
    forall u
      ensures u in t'.processing <==> u in t.processing && t.processing[u] > pass && u !in taken
    {
      FilesOneTimer(t, t0, t1, t2, handled, failed, taken, pass, u);
    }
    forall u | u in UsersOf(failed) && u !in UsersOf(handled)
      ensures u in t'.scheduled
    {
      FilesOneTimer(t, t0, t1, t2, handled, failed, taken, pass, u);
    }
  }

  lemma {:induction false} FilesOneTimer(t: T.Timers, t0: T.Timers, t1: T.Timers, t2: T.Timers, handled: seq<T.Claim>, failed: seq<T.Claim>,
    taken: set<UserId>, pass: Time, u: UserId)
    requires Leased(t, t0, taken, pass) && t1.processing == t0.processing && Freed(t1, t2, handled)
    requires (forall c :: c in handled || c in failed ==> c.user in taken && c == ClaimFor(t, c.user, pass))
    requires (forall v :: v in taken ==> ClaimFor(t, v, pass) in handled || ClaimFor(t, v, pass) in failed)
    ensures u in taken ==> (HasClaim(t1, handled, u) <==> u in UsersOf(handled))
    ensures u in taken && u !in UsersOf(handled) ==> u in UsersOf(failed) && HasClaim(t2, failed, u)
    ensures u in taken ==> !(u in t2.processing && !HasClaim(t2, failed, u))
    ensures u !in taken ==> !HasClaim(t1, handled, u) && !HasClaim(t2, failed, u)
    ensures HasClaim(t2, failed, u) ==> u in UsersOf(failed)
  {
    if u in taken {
      var c := ClaimFor(t, u, pass);
      assert T.HoldsLease(t1, c);
      assert u in UsersOf(handled) ==> c in handled;
      assert u in UsersOf(failed) ==> c in failed;
    }
  }

  // A user whose claim failed has no claim that was handled.
  predicate Apart(b: Batch) {
    UsersOf(b.handled) !! UsersOf(b.failed)
  }

  lemma {:induction false} FirstIsApart(claims: seq<T.Claim>, reply: Reply, rest: Batch)
    requires claims != [] && OnePerUser(claims) && Apart(rest)
    requires forall c :: c in rest.handled || c in rest.failed ==> c in claims[1..]
    ensures OnePerUser(claims[1..]) && Apart(WithFirst(claims[0], reply, rest))
  {
    OnlyThat(claims, claims[0]);
    var b := WithFirst(claims[0], reply, rest);
    forall c, d | c in b.handled && d in b.failed
      ensures c.user != d.user
    {
      assert c in rest.handled ==> c.user in UsersOf(rest.handled);
      assert d in rest.failed ==> d.user in UsersOf(rest.failed);
    }
  }

  lemma {:induction false} ClaimsAreApart(s: State, claims: seq<T.Claim>, moments: seq<Moment>, now: Time, end: Time)
    requires Ready(s, claims, moments, now, end) && OnePerUser(claims)
    ensures Apart(HandleAll(s, claims, moments))
    decreases |claims|
  {
    if claims != [] && !s.down {
      var s1 := First(s, claims, moments);
      FirstIsHandled(s, claims, moments, now, end);
      ClaimsAreFiled(s1, claims[1..], moments[1..], moments[0].at, end);
      OnlyThat(claims, claims[0]);
      ClaimsAreApart(s1, claims[1..], moments[1..], moments[0].at, end);
      FirstIsApart(claims, HandleExpired(Armed(s, moments[0].faults), claims[0], moments[0].at).1,
        HandleAll(s1, claims[1..], moments[1..]));
    }
  }

  // Without a failing write, only a timer of nobody fails.
  lemma {:induction false} OnlyStrangersFail(s: State, claims: seq<T.Claim>, moments: seq<Moment>, now: Time, end: Time)
    requires Ready(s, claims, moments, now, end) && !s.down && NothingFails(moments)
    ensures forall c :: c in HandleAll(s, claims, moments).failed ==> c.user !in s.db.members
    decreases |claims|
  {
    if claims != [] {
      var a, s1 := Armed(s, moments[0].faults), First(s, claims, moments);
      FirstIsHandled(s, claims, moments, now, end);
      HealthyClaim(a, claims[0], moments[0].at);
      HandleProgresses(a, claims[0], moments[0].at);
      OnlyStrangersFail(s1, claims[1..], moments[1..], moments[0].at, end);
    }
  }

  lemma {:induction false} AcknowledgeFiles(s: State, claimed: State, claims: seq<T.Claim>, taken: set<UserId>, b: Batch, pass: Time)
    requires Begun(s, claimed, claims, taken, pass) && !b.state.down
    requires b.state.cache.timers.processing == claimed.cache.timers.processing && Apart(b)
    requires forall c :: c in claims <==> c in b.handled || c in b.failed
    ensures var (t1, s') := (b.state.cache.timers, Acknowledge(b));
      && s'.db == b.state.db && s'.cache.presence == b.state.cache.presence && !s'.down
      && s'.handled == b.state.handled && s'.failed == b.state.failed
      && IsDone(s.cache.timers, s'.cache.timers, taken, pass)
      && (forall u :: u in t1.scheduled ==> u in s'.cache.timers.scheduled && s'.cache.timers.scheduled[u] == t1.scheduled[u])
      && (forall u :: u in s'.cache.timers.scheduled && u !in t1.scheduled ==>
            u in UsersOf(b.failed) && s'.cache.timers.scheduled[u] == Seconds(pass + T.RETRY_DELAY))
      && (forall u :: u in UsersOf(b.failed) ==> u in taken && u in s'.cache.timers.scheduled)
  {
    FilesTimers(s.cache.timers, claimed.cache.timers, b.state.cache.timers, b.handled, b.failed, taken, pass);
  }

  lemma {:induction false} BatchFrame(s: State, claims: seq<T.Claim>, moments: seq<Moment>, now: Time, end: Time)
    requires Ready(s, claims, moments, now, end)
    ensures var s' := HandleAll(s, claims, moments).state;
      s'.cache.timers.processing == s.cache.timers.processing && s'.cache.presence == s.cache.presence
    decreases |claims|
  {
    if claims != [] && !s.down {
      FirstIsHandled(s, claims, moments, now, end);
      HandleFrame(Armed(s, moments[0].faults), claims[0], moments[0].at);
      FilingKeepsTimers(Armed(s, moments[0].faults), claims[0], moments[0].at);
      BatchFrame(First(s, claims, moments), claims[1..], moments[1..], moments[0].at, end);
    }
  }

  // What the batch has come to when it is filed, and what becomes of its timers.
  ghost predicate Filed(s: State, s': State, b: Batch, taken: set<UserId>, pass: Time) {
    && s'.db == b.state.db && s'.cache.presence == s.cache.presence && !s'.down
    && IsDone(s.cache.timers, s'.cache.timers, taken, pass)
    && (forall u :: u in b.state.cache.timers.scheduled ==>
          u in s'.cache.timers.scheduled && s'.cache.timers.scheduled[u] == b.state.cache.timers.scheduled[u])
    && (forall u :: u in s'.cache.timers.scheduled && u !in b.state.cache.timers.scheduled ==>
          u in UsersOf(b.failed) && s'.cache.timers.scheduled[u] == Seconds(pass + T.RETRY_DELAY))
    && (forall u :: u in UsersOf(b.failed) ==> u in taken && u in s'.cache.timers.scheduled)
    && (forall u :: u in taken ==>
          ClaimFor(s.cache.timers, u, pass) in if u in UsersOf(b.failed) then s'.failed else s'.handled)
  }

  lemma {:induction false} PassIsFiled(s: State, claimed: State, claims: seq<T.Claim>, moments: seq<Moment>, taken: set<UserId>, pass: Time, end: Time)
    requires Begun(s, claimed, claims, taken, pass) && Ready(claimed, claims, moments, pass + 1, end)
    ensures var b := HandleAll(claimed, claims, moments);
      !b.state.down ==> Filed(s, Acknowledge(b), b, taken, pass)
  {
    var b := HandleAll(claimed, claims, moments);
    if !b.state.down {
      ClaimsAreFiled(claimed, claims, moments, pass + 1, end);
      ClaimsAreApart(claimed, claims, moments, pass + 1, end);
      BatchFrame(claimed, claims, moments, pass + 1, end);
      BatchKeepsInv(claimed, claims, moments, pass + 1, end);
      AcknowledgeFiles(s, claimed, claims, taken, b, pass);
      FiledAsSuch(s, claimed, claims, taken, b, pass, end);
    }
  }

  lemma {:induction false} FiledAsSuch(s: State, claimed: State, claims: seq<T.Claim>, taken: set<UserId>, b: Batch, pass: Time, end: Time)
    requires Begun(s, claimed, claims, taken, pass) && BatchOk(claimed, b, end) && !b.state.down
    requires forall c :: c in claims <==> c in b.handled || c in b.failed
    ensures forall u :: u in taken ==>
      ClaimFor(s.cache.timers, u, pass) in if u in UsersOf(b.failed) then b.state.failed else b.state.handled
  {
    forall u | u in taken
      ensures ClaimFor(s.cache.timers, u, pass) in if u in UsersOf(b.failed) then b.state.failed else b.state.handled
    {
      var c := ClaimFor(s.cache.timers, u, pass);
      assert c in claims;
      if u in UsersOf(b.failed) {
        var d :| d in b.failed && d.user == u;
        assert d in claims && d == c;
      } else {
        assert c in b.handled;
      }
    }
  }

  lemma {:induction false} FailedAreRetried(s: State, claimed: State, claims: seq<T.Claim>, moments: seq<Moment>, taken: set<UserId>, u: UserId, pass: Time, end: Time)
    requires Begun(s, claimed, claims, taken, pass) && Ready(claimed, claims, moments, pass + 1, end)
    requires var b := HandleAll(claimed, claims, moments);
      !b.state.down && Filed(s, Acknowledge(b), b, taken, pass) && u in UsersOf(b.failed)
    ensures var s' := Acknowledge(HandleAll(claimed, claims, moments));
      && u in taken && u in s'.cache.timers.scheduled
      && (s'.cache.timers.scheduled[u] == Seconds(pass + T.RETRY_DELAY) || (Queues(s.db, u) && !Queues(s'.db, u)))
  {
    ClaimsAreApart(claimed, claims, moments, pass + 1, end);
    assert NotAmong(u, HandleAll(claimed, claims, moments).handled) by {
      assert forall c :: c in HandleAll(claimed, claims, moments).handled ==> c.user in UsersOf(HandleAll(claimed, claims, moments).handled);
    }
    BatchKeepsTimer(claimed, claims, moments, u, pass + 1, end);
  }

  // Wherever writes fail, a pass that is not cut short has filed whatever it took as handled or
  // as failed and left none of it in processing; what failed is due again a little after the
  // pass, unless its user stopped waiting meanwhile and has a newer timer. Nothing fails
  // without a failing write but timers of nobody.
  lemma {:induction false} PassFilesEverything(s: State, pass: Time, limit: nat, moments: seq<Moment>, end: Time)
    returns (taken: set<UserId>, failed: set<UserId>)
    requires BeginsAt(s, pass, limit, moments, end)
    ensures LooksAt(s.cache.timers, pass, limit, taken) && failed <= taken
    ensures var (t, s') := (s.cache.timers, Pass(s, pass, limit, moments));
      !s'.down ==>
        && IsDone(t, s'.cache.timers, taken, pass)
        && (forall u :: u in taken ==> ClaimFor(t, u, pass) in if u in failed then s'.failed else s'.handled)
        && (forall u :: u in failed ==>
              && u in s'.cache.timers.scheduled
              && (s'.cache.timers.scheduled[u] == Seconds(pass + T.RETRY_DELAY) || (Queues(s.db, u) && !Queues(s'.db, u))))
    ensures NothingFails(moments) ==> !Pass(s, pass, limit, moments).down && forall u :: u in failed ==> u !in s.db.members
  {
    var claimed, claims;
    claimed, claims, taken := PassBegins(s, pass, limit, moments, end);
    failed := FailedUsers(s, claimed, claims, moments, taken, pass, end);
  }

  lemma {:induction false} FailedUsers(s: State, claimed: State, claims: seq<T.Claim>, moments: seq<Moment>, taken: set<UserId>, pass: Time, end: Time)
    returns (failed: set<UserId>)
    requires Begun(s, claimed, claims, taken, pass) && Ready(claimed, claims, moments, pass + 1, end)
    ensures failed <= taken
    ensures var (t, s') := (s.cache.timers, Acknowledge(HandleAll(claimed, claims, moments)));
      !s'.down ==>
        && IsDone(t, s'.cache.timers, taken, pass)
        && (forall u :: u in taken ==> ClaimFor(t, u, pass) in if u in failed then s'.failed else s'.handled)
        && (forall u :: u in failed ==>
              && u in s'.cache.timers.scheduled
              && (s'.cache.timers.scheduled[u] == Seconds(pass + T.RETRY_DELAY) || (Queues(s.db, u) && !Queues(s'.db, u))))
    ensures NothingFails(moments) ==>
      !Acknowledge(HandleAll(claimed, claims, moments)).down && forall u :: u in failed ==> u !in s.db.members
  {
    var b := HandleAll(claimed, claims, moments);
    PassIsFiled(s, claimed, claims, moments, taken, pass, end);
    failed := {};
    if !b.state.down {
      failed := UsersOf(b.failed);
      forall u | u in failed
        ensures var s' := Acknowledge(b);
          u in taken && u in s'.cache.timers.scheduled
          && (s'.cache.timers.scheduled[u] == Seconds(pass + T.RETRY_DELAY) || (Queues(s.db, u) && !Queues(s'.db, u)))
      {
        FailedAreRetried(s, claimed, claims, moments, taken, u, pass, end);
      }
    }
    if NothingFails(moments) {
      HealthyBatch(claimed, claims, moments, pass + 1, end);
      OnlyStrangersFail(claimed, claims, moments, pass + 1, end);
    }
  }

  // ---- What is over after a pass ----

  // The timer that the pass looks at is of the user's current lifecycle.
  predicate IsCurrent(s: State, u: UserId) {
    u in s.db.members && s.db.members[u].updatedAt <= DeadlineOf(s.cache.timers, u) * MILLIS
  }

  lemma {:induction false} HoldersAreCurrent(s: State, u: UserId, now: Time)
    requires InvAt(s, now) && !s.down && O.Timed(s.db, u)
    ensures IsCurrent(s, u)
  {
    var m := s.db.members[u];
    assert MemberShape(m, s.db.rights, s.cfg) && DeadlineOk(s.cache.timers, m);
    assert m.updatedAt + MILLIS <= m.expiresAt.value;
  }

  // What a pass owes to a user whom it takes.
  ghost predicate Settled(s: State, s': State, u: UserId, pass: Time) {
    && (O.Timed(s.db, u) ==> O.Ended(s'.db, u) && !s'.cache.timers.Watches(u))
    && KeepsOut(s, s', u) && u !in s'.cache.timers.processing && s'.cache.presence == s.cache.presence
    && (Queues(s.db, u) && IsCurrent(s, u) ==>
          if IsPresent(s.cache, u, pass)
          then Queues(s'.db, u) ==> u in s'.cache.timers.scheduled && s'.cache.timers.scheduled[u] == s.cache.presence[u]
          else !Queues(s'.db, u))
  }

  lemma {:induction false} HolderIsSettled(s: State, claimed: State, claims: seq<T.Claim>, moments: seq<Moment>, taken: set<UserId>, u: UserId, pass: Time, end: Time)
    requires Begun(s, claimed, claims, taken, pass) && Ready(claimed, claims, moments, pass + 1, end) && NothingFails(moments)
    requires u in taken && O.Timed(s.db, u) && IsCurrent(s, u)
    requires var b := HandleAll(claimed, claims, moments); !b.state.down && Filed(s, Acknowledge(b), b, taken, pass)
    ensures var s' := Acknowledge(HandleAll(claimed, claims, moments)); O.Ended(s'.db, u) && !s'.cache.timers.Watches(u)
  {
    HolderEnds(claimed, claims, moments, ClaimFor(s.cache.timers, u, pass), pass + 1, end);
    OnlyStrangersFail(claimed, claims, moments, pass + 1, end);
  }

  // The claim on a waiter tells the absent from the present.
  lemma {:induction false} WaiterIsClaimed(s: State, claimed: State, claims: seq<T.Claim>, taken: set<UserId>, u: UserId, pass: Time) returns (c: T.Claim)
    requires Begun(s, claimed, claims, taken, pass) && u in taken && Queues(s.db, u) && IsCurrent(s, u)
    ensures c in claims && c.user == u && OnePerUser(claims)
    ensures if IsPresent(s.cache, u, pass)
      then KindOf(claimed, c).Present? && claimed.cache.presence[u] == s.cache.presence[u] else KindOf(claimed, c).Absent?
  {
    c := ClaimFor(s.cache.timers, u, pass);
  }

  lemma {:induction false} WaiterIsFiled(s: State, s': State, b: Batch, taken: set<UserId>, u: UserId, pass: Time)
    requires Filed(s, s', b, taken, pass) && KeepsOut(s, s', u) && u in taken && Queues(s.db, u) && !b.state.down
    requires if IsPresent(s.cache, u, pass) then DueAgain(b.state, u, s.cache.presence[u]) else !Queues(b.state.db, u)
    ensures Settled(s, s', u, pass)
  {
  }

  lemma {:induction false} WaiterIsSettled(s: State, claimed: State, claims: seq<T.Claim>, moments: seq<Moment>, taken: set<UserId>, u: UserId, pass: Time, end: Time)
    requires Begun(s, claimed, claims, taken, pass) && Ready(claimed, claims, moments, pass + 1, end) && NothingFails(moments)
    requires u in taken && Queues(s.db, u) && IsCurrent(s, u)
    requires var b := HandleAll(claimed, claims, moments); !b.state.down && Filed(s, Acknowledge(b), b, taken, pass)
    ensures Settled(s, Acknowledge(HandleAll(claimed, claims, moments)), u, pass)
  {
    var c := WaiterIsClaimed(s, claimed, claims, taken, u, pass);
    var b := HandleAll(claimed, claims, moments);
    if IsPresent(s.cache, u, pass) {
      PresentIsDueAgain(claimed, claims, moments, c, pass + 1, end);
    } else {
      AbsentIsOut(claimed, claims, moments, c, pass + 1, end);
    }
    BatchKeepsOut(claimed, claims, moments, u, pass + 1, end);
    WaiterIsFiled(s, Acknowledge(b), b, taken, u, pass);
  }

  lemma {:induction false} UserIsSettled(s: State, claimed: State, claims: seq<T.Claim>, moments: seq<Moment>, taken: set<UserId>, u: UserId, pass: Time, end: Time)
    requires Begun(s, claimed, claims, taken, pass) && Ready(claimed, claims, moments, pass + 1, end) && NothingFails(moments)
    requires Inv(s) && !s.down && u in taken
    requires var b := HandleAll(claimed, claims, moments); !b.state.down && Filed(s, Acknowledge(b), b, taken, pass)
    ensures Settled(s, Acknowledge(HandleAll(claimed, claims, moments)), u, pass)
  {
    BatchKeepsOut(claimed, claims, moments, u, pass + 1, end);
    if O.Timed(s.db, u) {
      HoldersAreCurrent(s, u, s.clock);
      HolderIsSettled(s, claimed, claims, moments, taken, u, pass, end);
    } else if Queues(s.db, u) && IsCurrent(s, u) {
      WaiterIsSettled(s, claimed, claims, moments, taken, u, pass, end);
    }
  }

  lemma {:induction false} AllAreSettled(s: State, claimed: State, claims: seq<T.Claim>, moments: seq<Moment>, taken: set<UserId>, pass: Time, end: Time)
    requires Begun(s, claimed, claims, taken, pass) && Ready(claimed, claims, moments, pass + 1, end) && NothingFails(moments)
    requires Inv(s) && !s.down
    ensures var b := HandleAll(claimed, claims, moments);
      !b.state.down && forall u :: u in taken ==> Settled(s, Acknowledge(b), u, pass)
  {
    HealthyBatch(claimed, claims, moments, pass + 1, end);
    PassIsFiled(s, claimed, claims, moments, taken, pass, end);
    forall u | u in taken
      ensures Settled(s, Acknowledge(HandleAll(claimed, claims, moments)), u, pass)
    {
      UserIsSettled(s, claimed, claims, moments, taken, u, pass, end);
    }
  }

  // Without a failing write, whoever holds an offer or a right whose timer the pass takes, and
  // it takes whatever is due or abandoned up to the limit, is out afterwards without a timer;
  // whoever waits is out if absent, and if present due again exactly when the sign of life ends.
  lemma {:induction false} PassSettles(s: State, pass: Time, limit: nat, moments: seq<Moment>, end: Time) returns (taken: set<UserId>)
    requires BeginsAt(s, pass, limit, moments, end) && NothingFails(moments)
    ensures LooksAt(s.cache.timers, pass, limit, taken) && !Pass(s, pass, limit, moments).down
    ensures forall u :: u in taken ==> Settled(s, Pass(s, pass, limit, moments), u, pass)
  {
    var claimed, claims;
    claimed, claims, taken := PassBegins(s, pass, limit, moments, end);
    AllAreSettled(s, claimed, claims, moments, taken, pass, end);
  }

  // With a limit that covers what is due or abandoned, that is everybody concerned.
  lemma {:induction false} PassSettlesAll(s: State, pass: Time, limit: nat, moments: seq<Moment>, end: Time)
    requires BeginsAt(s, pass, limit, moments, end) && NothingFails(moments) && limit >= |OverdueUsers(s.cache.timers, pass)|
    ensures !Pass(s, pass, limit, moments).down
    ensures forall u :: NeedsALook(s.cache.timers, u, pass) ==> Settled(s, Pass(s, pass, limit, moments), u, pass)
  {
    var taken := PassSettles(s, pass, limit, moments, end);
    LooksAtAll(s.cache.timers, pass, limit, taken);
  }
}
