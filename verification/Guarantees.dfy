/** What users, the seller and the order system may rely on, in every reachable state and run. */
module Guarantees {
  import opened Models
  import opened MapSums
  import opened CacheScripts
  import opened DurableTx
  import opened Service
  import opened Invariants
  import opened Moves
  import opened Advance
  import opened Operations
  import opened Payment
  import opened Joining
  import opened Expiry
  import opened Restart
  import opened System
  import opened Progress
  import T = Timers

  // ---- Units ----

  // Each used right has exactly one order row, so what was sold is what was ordered.
  lemma {:induction false} SoldIsOrdered(d: Durable)
    requires OutboxRows(d)
    ensures Sold(d.rights) == Ordered(d.outbox)
  {
    SumOfPart(UsedUnitsOf(d.rights), QuantitiesOf(d.outbox));
  }

  lemma {:induction false} SameUnits(c: Cache, d: Durable)
    requires RowsAgree(c, d)
    ensures Held(c.members) == Held(d.members)
  {
    assert forall u :: u in d.members ==> c.members[u].Units() == d.members[u].Units();
    assert UnitsOf(c.members) == UnitsOf(d.members);
  }

  // available_units + RIGHT_ACTIVE quantities + offered units = product_count, no term is
  // negative, and nothing is sold twice or beyond the initial stock.
  lemma {:induction false} Conservation(s: State)
    requires Reachable(s) && s.db.stock.Some?
    ensures forall u :: u in s.db.members ==> s.db.members[u].Units() >= 0
    ensures 0 <= Held(s.db.members) <= s.db.stock.value.count
    ensures s.db.stock.value.count + Sold(s.db.rights) == s.cfg.initialStock
    ensures s.db.stock.value.count + Ordered(s.db.outbox) == s.cfg.initialStock
    ensures forall t :: t in s.db.rights ==> (s.db.rights[t].status.Used? <==> t in s.db.outbox)
    ensures !s.down ==>
      && Counters(s.cache).count == s.db.stock.value.count
      && Counters(s.cache).available + Held(s.cache.members) == Counters(s.cache).count
      && Counters(s.cache).available >= 0
  {
    ReachableInv(s);
    HeldBounds(s.db, s.product, s.cfg, s.clock, 0);
    SoldIsOrdered(s.db);
    if !s.down {
      AddsUp(s);
    }
    forall u | u in s.db.members
      ensures s.db.members[u].Units() >= 0
    {
      assert MemberShape(s.db.members[u], s.db.rights, s.cfg);
    }
  }

  // A user waits in the queue iff its membership says so, scores are distinct and at most
  // the sequence counter, and indexes and slots mirror the memberships.
  lemma {:induction false} QueueAgreement(s: State)
    requires Reachable(s) && !s.down
    ensures forall u :: u in Users(s.cache.queue) <==> (u in s.cache.members && s.cache.members[u].status.Queued?)
    ensures forall u :: u in s.cache.index <==> (u in s.cache.members && s.cache.members[u].status.Queued?)
    ensures forall u :: u in s.cache.slots <==> (u in s.cache.members && s.cache.members[u].IsLive())
    ensures forall e :: e in s.cache.queue ==> e.score <= s.cache.lastScore
    ensures forall i, j :: 0 <= i < j < |s.cache.queue| ==>
      s.cache.queue[i].score < s.cache.queue[j].score && s.cache.queue[i].user != s.cache.queue[j].user
  {
    ReachableInv(s);
    assert QueueAgrees(s.cache);
    UsersDistinct(s.cache);
    assert forall u :: u in QueuedUsers(s.cache.members) <==> u in Users(s.cache.queue);
  }

  // The pop never meets a ghost or a user who does not wait.
  lemma {:induction false} PopOfWaiter(s: State, m: Membership)
    requires Head(s, m)
    ensures var p := PopAndAllocate(s.cache).1; p.status == Some(Queued) || Decides(p)
  {
  }

  lemma {:induction false} PopMeetsOnlyWaiters(s: State)
    requires Reachable(s) && !s.down
    ensures var p := PopAndAllocate(s.cache).1;
      p.NoOne? || p.status == Some(Queued) || Decides(p)
  {
    ReachableInv(s);
    if s.cache.queue != [] {
      var m := HeadIsQueued(s, s.clock);
      PopOfWaiter(s, m);
    }
  }

  // Where a state is up, its cached units add up.
  lemma {:induction false} AddsUp(s: State)
    requires Inv(s) && !s.down && s.db.stock.Some?
    ensures Counters(s.cache) == Stock(s.db.stock.value.count, s.db.stock.value.count - Held(s.cache.members))
    ensures 0 <= Held(s.cache.members) <= s.db.stock.value.count
  {
    SameUnits(s.cache, s.db);
    HeldBounds(s.db, s.product, s.cfg, s.clock, 0);
  }

  // A process that died right after any durable write restarts without a repair, and its
  // units add up again.
  lemma {:induction false} CrashIsSurvived(s: State, x: Step, at: Time) returns (y: Step)
    requires Inv(s) && Possible(s, x) && Next(s, x).down && at > Next(s, x).clock
    ensures y.event.Restart? && Possible(Next(s, x), y)
    ensures RestoredFrom(Next(Next(s, x), y), Next(s, x).db)
  {
    NextKeepsInv(s, x);
    y := RestartWorks(Next(s, x), at);
    IsRestored(Next(Next(s, x), y));
  }

  ghost predicate RestoredFrom(s: State, d: Durable) {
    && !s.down && Inv(s) && s.db == d
    && (d.stock.Some? ==>
          Counters(s.cache) == Stock(d.stock.value.count, d.stock.value.count - Held(s.cache.members))
          && 0 <= Held(s.cache.members) <= d.stock.value.count)
  }

  lemma {:induction false} RestartWorks(s: State, at: Time) returns (y: Step)
    requires Inv(s) && at > s.clock
    ensures y.event.Restart? && Possible(s, y)
    ensures Inv(Next(s, y)) && !Next(s, y).down && Next(s, y).db == s.db
  {
    var rows := SnapshotExists(s);
    y := Step(Restart(rows), at, Healthy);
    ArmedInv(s, Healthy);
    RestartKeepsInv(Armed(s, Healthy), rows, at);
    NextKeepsInv(s, y);
  }

  lemma {:induction false} IsRestored(s: State)
    requires Inv(s) && !s.down
    ensures RestoredFrom(s, s.db)
  {
    if s.db.stock.Some? {
      AddsUp(s);
    }
  }

  // ---- FIFO ----

  ghost predicate WaitsThroughout(s: State, run: seq<Step>, u: UserId)
    decreases |run|
  {
    Queues(s.db, u) && (run == [] || WaitsThroughout(Next(s, run[0]), run[1..], u))
  }

  ghost predicate GainsDuring(s: State, run: seq<Step>, w: UserId)
    decreases |run|
  {
    run != [] && (Gains(s.db, Next(s, run[0]).db, w) || GainsDuring(Next(s, run[0]), run[1..], w))
  }

  // Whoever is ahead after a step was ahead before it.
  lemma {:induction false} AheadWasAhead(s: State, x: Step, w: UserId, u: UserId)
    requires Inv(s) && Possible(s, x)
    requires Queues(s.db, u) && Ahead(Next(s, x).db, w, u)
    ensures Ahead(s.db, w, u)
  {
    NextProgresses(s, x);
  }

  // While a user waits, units go only to users who were ahead of it from the start: through
  // failures, crashes and restarts, no newcomer and nobody behind it is served first.
  lemma {:induction false} NeverOvertaken(s: State, run: seq<Step>, u: UserId, w: UserId)
    requires Inv(s) && PossibleRun(s, run)
    requires WaitsThroughout(s, run, u) && GainsDuring(s, run, w)
    ensures Ahead(s.db, w, u)
    decreases |run|
  {
    var x, s1 := run[0], Next(s, run[0]);
    NextKeepsInv(s, x);
    NextProgresses(s, x);
    if Gains(s.db, s1.db, w) {
      assert Queues(s1.db, u);
    } else {
      NeverOvertaken(s1, run[1..], u, w);
      AheadWasAhead(s, x, w, u);
    }
  }

  // Being ahead is having the smaller sequence number in the queue.
  lemma {:induction false} AheadInQueue(s: State, i: nat, j: nat)
    requires Inv(s) && !s.down && i < |s.cache.queue| && j < |s.cache.queue|
    ensures Ahead(s.db, s.cache.queue[i].user, s.cache.queue[j].user)
       <==> s.cache.queue[i].score < s.cache.queue[j].score
  {
    var q := s.cache.queue;
    assert q[i].user in Users(q) && q[j].user in Users(q);
    assert q[i].user in QueuedUsers(s.cache.members) && q[j].user in QueuedUsers(s.cache.members);
  }

  // ---- Finality ----

  // Over any run a right keeps its terms, a decided one its outcome, and an order its row.
  lemma {:induction false} DecisionsAreFinal(s: State, run: seq<Step>)
    requires Inv(s) && PossibleRun(s, run)
    ensures RightsAreFinal(s.db, Outcome(s, run).db) && OrdersAreFinal(s.db, Outcome(s, run).db)
    ensures StockOnlyFalls(s.db, Outcome(s, run).db)
    decreases |run|
  {
    if run != [] {
      var s1 := Next(s, run[0]);
      NextKeepsInv(s, run[0]);
      NextProgresses(s, run[0]);
      DecisionsAreFinal(s1, run[1..]);
      var s2 := Outcome(s1, run[1..]);
      forall t | t in s.db.rights
        ensures t in s2.db.rights && Succeeds(s.db.rights[t], s2.db.rights[t])
      {
        assert Succeeds(s.db.rights[t], s1.db.rights[t]) && Succeeds(s1.db.rights[t], s2.db.rights[t]);
      }
    }
  }

  // ---- Expiry ----

  // An offer and a right last exactly as long as configured from the moment they were given.
  lemma {:induction false} LifetimesAreExact(s: State, u: UserId)
    requires Inv(s) && u in s.db.members && s.db.members[u].IsTimed()
    ensures var m := s.db.members[u];
      m.expiresAt == Some(m.updatedAt + if m.status.OfferPending? then s.cfg.offerTtl else s.cfg.paymentTtl)
      && (m.status.RightActive? ==>
            m.token.Some? && m.token.value in s.db.rights && Some(s.db.rights[m.token.value].expiresAt) == m.expiresAt)
  {
    assert MemberShape(s.db.members[u], s.db.rights, s.cfg);
  }

  // A claim is taken for stale exactly when its deadline is not that of the current
  // offer or right.
  lemma {:induction false} StaleMeansOlder(s: State, c: T.Claim)
    requires Inv(s) && !s.down && c in Claims(s)
    requires c.user in s.db.members && s.db.members[c.user].IsTimed()
    ensures var m := s.db.members[c.user];
      m.expiresAt.Some? && (IsStale(c, m) <==> c.deadline < Seconds(m.expiresAt.value))
  {
    assert MemberShape(s.db.members[c.user], s.db.rights, s.cfg);
  }

  // Who may end or change an offer or a right.
  predicate MayChange(m: Membership, e: Event) {
    match e
    case Accept(v, _) => v == m.user && m.status.OfferPending?
    case Leave(v, _) => v == m.user
    case Pay(t, _) => m.token == Some(t)
    case Handle(c) => c.user == m.user && m.expiresAt.Some? && c.pass + MILLIS > m.expiresAt.value
    case _ => false
  }

  lemma {:induction false} HandlesInTime(s: State, c: T.Claim, now: Time)
    requires InvAt(s, now) && !s.down && c in s.open
    requires c.user in s.db.members && s.db.members[c.user].IsTimed()
    requires HandleClaim(s, c, now).db != s.db
    ensures MayChange(s.db.members[c.user], Handle(c))
  {
    var m := s.db.members[c.user];
    Lookup(s, c.user, now);
    HandleExpiredUnfolds(s, c, now);
    assert m.IsLive() && c in Claims(s) && Harmless(c.deadline, m);
  }

  lemma {:induction false} RefusesOthers(s: State, e: Event, u: UserId, now: Time)
    requires InvAt(s, now) && !s.down
    requires u in s.db.members && s.db.members[u].IsTimed()
    requires (e.Join? && e.user == u) || (e.Accept? && e.user == u && !s.db.members[u].status.OfferPending?)
    ensures Effect(s, e, now) == s
  {
    Lookup(s, u, now);
  }

  lemma {:induction false} SellsOwnRight(s: State, token: Token, order: OrderId, now: Time)
    requires InvAt(s, now) && !s.down && Sells(s, token, order, now)
    ensures s.db.rights[token].user in s.db.members && s.db.members[s.db.rights[token].user].token == Some(token)
  {
  }

  // Whatever was claimed, returned, reclaimed or left behind by an earlier membership, the
  // worker never ends an offer or a right a second or more before its time, and nobody but
  // its holder and the payment of that very right ends it otherwise.
  lemma {:induction false} NoEarlyExpiry(s: State, x: Step, u: UserId)
    requires Inv(s) && Possible(s, x)
    requires u in s.db.members && s.db.members[u].IsTimed()
    requires u in Next(s, x).db.members ==> Next(s, x).db.members[u] != s.db.members[u]
    ensures MayChange(s.db.members[u], x.event)
  {
    var a := Armed(s, x.faults);
    ArmedInv(s, x.faults);
    LaterKeepsInv(a, x.at);
    NextProgresses(s, x);
    assert Actor(s, x.event, x.at) == Some(u);
    assert s.db.members[u].user == u;
    if x.event.Handle? {
      HandlesInTime(a, x.event.claim, x.at);
    } else if x.event.Pay? {
      SellsOwnRight(a, x.event.token, x.event.order, x.at);
    } else if x.event.Join? || (x.event.Accept? && !s.db.members[u].status.OfferPending?) {
      RefusesOthers(a, x.event, u, x.at);
    }
  }

  // Nobody who waits, is offered units or holds a right is ever without a timer.
  lemma {:induction false} NobodyIsForgotten(s: State)
    requires Reachable(s) && !s.down
    ensures forall u :: u in s.db.members && s.db.members[u].IsLive() ==> s.cache.timers.Watches(u)
    ensures forall t :: t in s.db.rights && s.db.rights[t].status.Active? ==> s.cache.timers.Watches(s.db.rights[t].user)
  {
    ReachableInv(s);
    forall t | t in s.db.rights && s.db.rights[t].status.Active?
      ensures s.cache.timers.Watches(s.db.rights[t].user)
    {
      var u := s.db.rights[t].user;
      assert MemberShape(s.db.members[u], s.db.rights, s.cfg);
      assert s.db.members[u].IsLive();
    }
  }
}
