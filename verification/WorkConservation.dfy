/** Runs without failures: no unit lies idle while somebody waits, and sold out is the end. */
module WorkConservation {
  import opened Models
  import opened CacheScripts
  import opened DurableTx
  import opened Service
  import opened Invariants
  import opened Moves
  import opened Advance
  import opened Operations
  import opened Payment
  import opened Joining
  import opened Expiry
  import opened Restart
  import opened System
  import opened Guarantees
  import opened Greedy
  import opened Replies
  import T = Timers

  // Between operations: everything is in order and nobody waits for units that are there.
  ghost predicate Settled(s: State, now: Time) {
    InvAt(s, now) && !s.down && s.faults.Healthy? && Idle(s)
  }

  lemma {:induction false} AdvanceSettles(s: State, now: Time)
    requires InvAt(s, now) && !s.down && now > s.clock && s.faults.Healthy?
    ensures Settled(AdvanceQueue(s, now).0, now)
  {
    HealthyAdvanceFinishes(s, now);
    AdvanceKeepsInv(s, now);
    var k := AdvanceIsGreedy(s, now);
  }

  // ---- The operations ----

  // Units given back are offered to the queue at once.
  lemma {:induction false} AcceptAdvances(s: State, u: UserId, accepted: int, now: Time)
    requires s.faults.Healthy? && !s.down
    ensures var s' := AcceptOffer(s, u, accepted, now).0;
      s' == s
      || (u in s.cache.members && s.cache.members[u].status.OfferPending? && s.cache.members[u].available.Some?
          && 0 < accepted <= s.cache.members[u].available.value
          && var (s1, e) := TakeOffer(s, s.cache.members[u], accepted, now);
             e.Finished? && s1.faults.Healthy? && s1.clock == s.clock && !s1.down
             && s' == if accepted == s.cache.members[u].available.value then s1 else AdvanceQueue(s1, now).0)
  {
  }

  lemma {:induction false} TakeAllSettles(s: State, s1: State, m: Membership, accepted: int, now: Time)
    requires Cached(s, m) && m.status.OfferPending? && accepted == m.available.value && Idle(s)
    requires var row := AcceptedRow(s, m, accepted, now);
      Stepped(s, s1, Finished, row, row, Some(NewRight(s, m, accepted, now)))
    ensures Idle(s1)
  {
  }

  lemma {:induction false} AcceptSettles(s: State, u: UserId, accepted: int, now: Time)
    requires Settled(s, now) && now > s.clock
    ensures Settled(AcceptOffer(s, u, accepted, now).0, now)
  {
    AcceptAdvances(s, u, accepted, now);
    var s' := AcceptOffer(s, u, accepted, now).0;
    if s' != s {
      var m := s.cache.members[u];
      var s1 := TakeOffer(s, m, accepted, now).0;
      Lookup(s, u, now);
      TakeOfferKeepsInv(s, u, accepted, now);
      if accepted == m.available.value {
        AcceptIsStep(s, m, accepted, now);
        TakeAllSettles(s, s1, m, accepted, now);
      } else {
        AdvanceSettles(s1, now);
      }
    }
  }

  lemma {:induction false} EndOfferAdvances(s: State, m: Membership, stamp: Time, removeTimer: bool, now: Time)
    requires s.faults.Healthy? && !s.down && m.available.Some?
    ensures var (s1, e) := CloseOffer(s, m, stamp, removeTimer, now);
      s1.faults.Healthy? && s1.clock == s.clock && !s1.down
      && EndOffer(s, m, stamp, removeTimer, false, now).0 == AdvanceQueue(s1, now).0
  {
  }

  lemma {:induction false} EndOfferSettles(s: State, u: UserId, stamp: Time, removeTimer: bool, now: Time)
    requires Settled(s, now) && now > s.clock
    requires u in s.cache.members && s.cache.members[u].status.OfferPending?
    ensures s.cache.members[u].available.Some? && s.cache.members[u].available.value > 0
    ensures Settled(EndOffer(s, s.cache.members[u], stamp, removeTimer, false, now).0, now)
  {
    var m := s.cache.members[u];
    Lookup(s, u, now);
    CloseOfferKeepsInv(s, u, stamp, removeTimer, now);
    EndOfferAdvances(s, m, stamp, removeTimer, now);
    AdvanceSettles(CloseOffer(s, m, stamp, removeTimer, now).0, now);
  }

  lemma {:induction false} ExpireAdvances(s: State, m: Membership, stamp: Time, removeTimer: bool, now: Time)
    requires s.faults.Healthy? && !s.down && m.token.Some?
    requires var tx := ExpireRight(s.db, m.token.value, m.Settled(Declined, stamp), now);
      tx.TxResult? && tx.transitioned
    ensures var tx := ExpireRight(s.db, m.token.value, m.Settled(Declined, stamp), now);
      var s1 := ExpireHeld(s, m, tx.db, tx.right, stamp, removeTimer, now).0;
      s1.faults.Healthy? && s1.clock == s.clock && !s1.down
      && ExpireActiveRight(s, m, stamp, removeTimer, now).0 == AdvanceQueue(s1, now).0
  {
  }

  lemma {:induction false} ExpireSettles(s: State, u: UserId, stamp: Time, removeTimer: bool, now: Time)
    requires Settled(s, now) && now > s.clock
    requires u in s.cache.members && s.cache.members[u].status.RightActive?
    ensures Settled(ExpireActiveRight(s, s.cache.members[u], stamp, removeTimer, now).0, now)
  {
    var m := s.cache.members[u];
    ExpireHeldKeepsInv(s, u, stamp, removeTimer, now);
    ExpireAdvances(s, m, stamp, removeTimer, now);
    var tx := ExpireRight(s.db, m.token.value, m.Settled(Declined, stamp), now);
    AdvanceSettles(ExpireHeld(s, m, tx.db, tx.right, stamp, removeTimer, now).0, now);
  }

  // Leaving the queue frees no unit.
  lemma {:induction false} QuitIsIdle(s: State, m: Membership, stamp: Time, now: Time)
    requires Cached(s, m) && m.status.Queued? && s.faults.Healthy? && Idle(s)
    ensures var s1 := QuitQueue(s, m.Settled(Declined, stamp), now).0;
      Idle(s1) && s1.faults.Healthy? && !s1.down
  {
  }

  lemma {:induction false} QuitSettles(s: State, u: UserId, stamp: Time, now: Time)
    requires Settled(s, now) && now > s.clock
    requires u in s.cache.members && s.cache.members[u].status.Queued?
    ensures var m := s.cache.members[u];
      m.(status := Declined, updatedAt := stamp) == m.Settled(Declined, stamp)
      && Settled(QuitQueue(s, m.Settled(Declined, stamp), now).0, now)
  {
    Lookup(s, u, now);
    QuitKeepsInv(s, u, stamp, now);
    QuitIsIdle(s, s.cache.members[u], stamp, now);
  }

  lemma {:induction false} LeaveSettles(s: State, u: UserId, offerOnly: bool, now: Time)
    requires Settled(s, now) && now > s.clock
    ensures Settled(LeaveQueue(s, u, offerOnly, now).0, now)
  {
    LeaveUnfolds(s, u, offerOnly, now);
    if u in s.cache.members {
      var m := s.cache.members[u];
      if m.status.Queued? {
        QuitSettles(s, u, now, now);
      } else if m.status.OfferPending? {
        EndOfferSettles(s, u, now, true, now);
      } else if m.status.RightActive? {
        ExpireSettles(s, u, now, true, now);
      }
    }
  }

  lemma {:induction false} PaymentAdvances(s: State, token: Token, order: OrderId, now: Time)
    requires s.faults.Healthy? && !s.down
    ensures var tx := UseRight(s.db, token, order, now);
      && (tx.TxError? ==> ProcessPayment(s, token, order, now).0 == s)
      && (tx.TxResult? ==>
            var (s1, e) := Paid(s, token, order, now);
            e.Finished? && s1.faults.Healthy? && s1.clock == s.clock && !s1.down
            && ProcessPayment(s, token, order, now) == (AdvanceQueue(s1, now).0, Replied(AdvanceQueue(s1, now).1, Ok)))
  {
  }

  lemma {:induction false} PaymentSettles(s: State, token: Token, order: OrderId, now: Time)
    requires Settled(s, now) && now > s.clock
    ensures Settled(ProcessPayment(s, token, order, now).0, now)
  {
    PaymentAdvances(s, token, order, now);
    var tx := UseRight(s.db, token, order, now);
    if tx.TxResult? {
      if tx.transitioned {
        SaleKeepsInv(s, token, order, now);
      } else {
        ReplayRecordsNothing(s, token, order, now);
      }
      AdvanceSettles(Paid(s, token, order, now).0, now);
    }
  }

  // A newcomer waits only when there is nothing to be had.
  lemma {:induction false} EntryIsIdle(s: State, u: UserId, quantity: int, now: Time)
    requires Newcomer(s, u) && quantity > 0 && s.faults.Healthy? && Idle(s)
    requires 0 <= Counters(s.cache).available <= Counters(s.cache).count
    ensures var (s1, e) := Admit(WithSlot(s, u), u, quantity, now);
      e.Finished? && Idle(s1) && s1.faults.Healthy? && !s1.down
  {
  }

  lemma {:induction false} TouchIsIdle(s: State, total: nat)
    requires s.faults.Healthy? && Idle(s) && (s.cache.stock.Some? || s.cache.queue == [])
    ensures var (s1, e) := Touch(s, total);
      e.Finished? && Idle(s1) && s1.faults.Healthy? && s1.down == s.down && s1.clock == s.clock
  {
  }

  lemma {:induction false} StockBounds(s: State, now: Time)
    requires InvAt(s, now) && !s.down && s.db.stock.Some?
    ensures 0 <= Counters(s.cache).available <= Counters(s.cache).count
  {
    HeldBounds(s.db, s.product, s.cfg, now, 0);
  }

  lemma {:induction false} KnownOrEmpty(s: State)
    requires Inv(s) && !s.down
    ensures s.cache.stock.Some? || s.cache.queue == []
  {
    if s.db.stock.None? {
      EmptyQueue(s);
    }
  }

  lemma {:induction false} JoinSettles(s: State, u: UserId, quantity: int, others: nat, fetched: Option<nat>, now: Time)
    requires Inv(s) && Settled(s, now) && now > s.clock && u != NO_NAME
    requires s.db.stock.None? && fetched.Some? ==> fetched.value == s.cfg.initialStock
    ensures Settled(JoinQueue(s, u, quantity, others, fetched, now).0, now)
  {
    if Idempotent(s.cache, u).None? {
      NobodyHasSlot(s, u);
    }
    JoinKeepsInv(s, u, quantity, others, fetched, now);
    JoinUnfolds(s, u, quantity, others, fetched, now);
    var s' := JoinQueue(s, u, quantity, others, fetched, now).0;
    if s' != s {
      KnownOrEmpty(s);
      TouchIsIdle(s, fetched.value);
      TouchKeepsInv(s, fetched.value);
      TouchThenSlot(s, u, fetched.value);
      var s1 := Touch(s, fetched.value).0;
      LaterKeepsInv(s1, now);
      IsNewcomer(s1, u, now);
      StockBounds(s1, now);
      EntryIsIdle(s1, u, quantity, now);
    }
  }

  lemma {:induction false} RightExpirySettles(s: State, u: UserId, pass: Time, now: Time)
    requires Settled(s, now) && now > s.clock
    requires u in s.cache.members && s.cache.members[u].status.RightActive?
    ensures Settled(ExpireNow(s, s.cache.members[u], pass, now).0, now)
  {
    ExpireSettles(s, u, now, false, now);
  }

  lemma {:induction false} OfferExpirySettles(s: State, u: UserId, pass: Time, now: Time)
    requires Settled(s, now) && now > s.clock
    requires u in s.cache.members && s.cache.members[u].status.OfferPending?
    ensures Settled(ExpireNow(s, s.cache.members[u], pass, now).0, now)
  {
    EndOfferSettles(s, u, pass, false, now);
  }

  lemma {:induction false} AbsenceSettles(s: State, u: UserId, pass: Time, now: Time)
    requires Settled(s, now) && now > s.clock
    requires u in s.cache.members && s.cache.members[u].status.Queued?
    ensures Settled(ExpireNow(s, s.cache.members[u], pass, now).0, now)
  {
    if IsPresent(s.cache, s.cache.members[u].user, pass) {
      Lookup(s, u, now);
      ExpireNowHandles(s, u, pass, now);
      PresenceIsIdle(s, s.cache.members[u], pass, now);
    } else {
      QuitSettles(s, u, pass, now);
    }
  }

  lemma {:induction false} PresenceIsIdle(s: State, m: Membership, pass: Time, now: Time)
    requires m.status.Queued? && IsPresent(s.cache, m.user, pass) && Idle(s)
    ensures var s' := ExpireNow(s, m, pass, now).0; Idle(s') && s'.faults == s.faults && s'.down == s.down
  {
  }

  lemma {:induction false} ExpireNowSettles(s: State, u: UserId, pass: Time, now: Time)
    requires Settled(s, now) && now > s.clock
    requires u in s.cache.members && s.cache.members[u].IsLive()
    ensures Settled(ExpireNow(s, s.cache.members[u], pass, now).0, now)
  {
    var m := s.cache.members[u];
    Lookup(s, u, now);
    if m.status.RightActive? {
      RightExpirySettles(s, u, pass, now);
    } else if m.status.OfferPending? {
      OfferExpirySettles(s, u, pass, now);
    } else {
      AbsenceSettles(s, u, pass, now);
    }
  }

  lemma {:induction false} HandleSettles(s: State, c: T.Claim, now: Time)
    requires Settled(s, now) && now > s.clock && c in s.open
    ensures Settled(HandleClaim(s, c, now), now)
  {
    HandleKeepsInv(s, c, now);
    if c.user in s.cache.members && s.cache.members[c.user].IsLive() {
      LiveClaimIsIdle(s, c, now);
    } else if c.user in s.cache.members {
      HandleExpiredUnfolds(s, c, now);
    }
    FilingIsIdle(s, c, now);
  }

  lemma {:induction false} LiveClaimIsIdle(s: State, c: T.Claim, now: Time)
    requires Settled(s, now) && now > s.clock && c.user in s.cache.members && s.cache.members[c.user].IsLive()
    ensures var s' := HandleExpired(s, c, now).0; Idle(s') && s'.faults.Healthy? && !s'.down
  {
    Lookup(s, c.user, now);
    HandleExpiredUnfolds(s, c, now);
    if !IsStale(c, s.cache.members[c.user]) {
      ExpireNowSettles(s, c.user, c.pass, now);
    }
  }

  lemma {:induction false} FilingIsIdle(s: State, c: T.Claim, now: Time)
    ensures var (s1, s') := (HandleExpired(s, c, now).0, HandleClaim(s, c, now));
      s'.cache == s1.cache && s'.faults == s1.faults && s'.down == s1.down
  {
  }

  // ---- Runs without failures ----

  ghost predicate Smooth(run: seq<Step>) {
    forall i :: 0 <= i < |run| ==> run[i].faults.Healthy?
  }

  ghost predicate AtRest(s: State) {
    Settled(s, s.clock)
  }

  lemma {:induction false} RestartIsIdle(s: State, rows: seq<Membership>, now: Time)
    requires Inv(s) && !s.down && now > s.clock && Idle(s) && IsSnapshot(s.db, s.product, rows)
    ensures Idle(Restarted(s, rows, now))
  {
    RestartRefines(s, rows, now);
    assert |UsersInOrder(s.cache.queue)| == |s.cache.queue|;
    var c := Restarted(s, rows, now).cache;
    assert |UsersInOrder(c.queue)| == |c.queue|;
  }

  lemma {:induction false} TimerStepRests(s: State, e: Event, now: Time)
    requires Inv(s) && !s.down && Idle(s) && s.faults.Healthy? && now >= s.clock
    requires e.Appear? || e.ClaimDue? || e.GiveUp? || e.Ack? || e.Nack? || e.Reclaim?
    ensures var s' := Effect(s, e, now); !s'.down && Idle(s') && s'.faults.Healthy?
  {
    if e.Appear? {
      LaterKeepsInv(s, now);
      PresenceIsTimersOnly(s, e.user, now);
    }
  }

  lemma {:induction false} OperationRests(s: State, e: Event, now: Time)
    requires AtRest(s) && Possible(s, Step(e, now, Healthy))
    ensures var s' := Effect(s, e, now); !s'.down && Idle(s')
  {
    LaterKeepsInv(s, now);
    match e
    case Join(u, quantity, others, fetched) => JoinSettles(s, u, quantity, others, fetched, now);
    case Accept(u, accepted) => AcceptSettles(s, u, accepted, now);
    case Leave(u, offerOnly) => LeaveSettles(s, u, offerOnly, now);
    case Pay(token, order) => PaymentSettles(s, token, order, now);
    case Handle(c) => HandleSettles(s, c, now);
    case Restart(rows) => RestartKeepsInv(s, rows, now); RestartIsIdle(s, rows, now);
    case _ => TimerStepRests(s, e, now);
  }

  lemma {:induction false} StepRests(s: State, x: Step)
    requires AtRest(s) && Possible(s, x) && x.faults.Healthy?
    ensures AtRest(Next(s, x))
  {
    assert Armed(s, x.faults) == s;
    NextKeepsInv(s, x);
    OperationRests(s, x.event, x.at);
  }

  lemma {:induction false} RunRests(s: State, run: seq<Step>)
    requires AtRest(s) && PossibleRun(s, run) && Smooth(run)
    ensures AtRest(Outcome(s, run))
    decreases |run|
  {
    if run != [] {
      StepRests(s, run[0]);
      RunRests(Next(s, run[0]), run[1..]);
    }
  }

  lemma {:induction false} QueueMeansNothingFree(s: State)
    requires AtRest(s)
    ensures s.cache.queue != [] ==> Counters(s.cache).available == 0 && Counters(s.cache).count > 0
  {
  }

  // While somebody waits, every unit is held by somebody and there are units to wait for.
  lemma {:induction false} NothingLiesIdle(s: State, run: seq<Step>)
    requires AtRest(s) && PossibleRun(s, run) && Smooth(run)
    ensures AtRest(Outcome(s, run))
    ensures var c := Outcome(s, run).cache;
      c.queue != [] ==> Counters(c).available == 0 && Counters(c).count > 0
  {
    RunRests(s, run);
    QueueMeansNothingFree(Outcome(s, run));
  }

  lemma {:induction false} InitialRests(product: ProductId, cfg: Config)
    requires cfg.Valid() && product != NO_NAME
    ensures AtRest(Initial(product, cfg))
  {
    InitialInv(product, cfg);
  }

  // ---- Sold out ----

  lemma {:induction false} SoldOutIsEmpty(s: State)
    requires AtRest(s) && s.db.stock.Some? && s.db.stock.value.count == 0
    ensures LiveUsers(s.db.members) == {}
  {
    assert s.cache.queue == [];
    forall u | u in s.db.members
      ensures !s.db.members[u].IsLive()
    {
      if s.db.members[u].IsLive() {
        HoldsOrWaits(s, u);
      }
    }
  }

  lemma {:induction false} HoldsOrWaits(s: State, u: UserId)
    requires Inv(s) && !s.down && u in s.db.members && s.db.members[u].IsLive()
    ensures Held(s.db.members) > 0 || s.cache.queue != []
  {
    Lookup(s, u, s.clock);
    if s.cache.members[u].status.Queued? {
      WaiterIsQueued(s.cache, u);
    }
  }

  // Once the last unit is sold nobody takes part any more, nobody ever will, and every
  // join that gets as far as the stock is told so.
  lemma {:induction false} SoldOutIsFinal(s: State, run: seq<Step>)
    requires AtRest(s) && PossibleRun(s, run) && Smooth(run)
    requires s.db.stock.Some? && s.db.stock.value.count == 0
    ensures var s' := Outcome(s, run);
      s'.db.stock.Some? && s'.db.stock.value.count == 0 && LiveUsers(s'.db.members) == {}
  {
    NothingLiesIdle(s, run);
    DecisionsAreFinal(s, run);
    var s' := Outcome(s, run);
    HeldBounds(s'.db, s'.product, s'.cfg, s'.clock, 0);
    SoldOutIsEmpty(s');
  }

  lemma {:induction false} RefusedAtTheDoor(s: State, u: UserId, quantity: int, others: nat, fetched: nat, now: Time)
    requires s.faults.Healthy? && !s.down && s.cache.stock.Some? && Counters(s.cache).count == 0
    requires quantity > 0 && Idempotent(s.cache, u).None? && u !in s.cache.slots && others < s.cfg.slotLimit
    ensures var (s', reply) := JoinQueue(s, u, quantity, others, Some(fetched), now);
      reply == Ok && u in s'.db.members && s'.db.members[u].status.SoldOut?
      && u in s'.cache.members && s'.cache.members[u].status.SoldOut?
  {
  }

  lemma {:induction false} LateJoinIsSoldOut(s: State, u: UserId, quantity: int, others: nat, fetched: nat, now: Time)
    requires AtRest(s) && now > s.clock && quantity > 0 && others < s.cfg.slotLimit
    requires s.db.stock.Some? && s.db.stock.value.count == 0
    ensures var (s', reply) := JoinQueue(s, u, quantity, others, Some(fetched), now);
      reply == Ok && u in s'.db.members && s'.db.members[u].status.SoldOut?
      && u in s'.cache.members && s'.cache.members[u].status.SoldOut?
  {
    SoldOutIsEmpty(s);
    SameStatusSets(s.cache, s.db);
    assert u !in LiveUsers(s.cache.members);
    NobodyHasSlot(s, u);
    RefusedAtTheDoor(s, u, quantity, others, fetched, now);
  }

  // ---- Replayed webhooks ----

  lemma {:induction false} IdleAdvanceDoesNothing(s: State, now: Time)
    requires InvAt(s, now) && !s.down && now > s.clock && Idle(s)
    ensures AdvanceQueue(s, now) == (s, Finished)
  {
    var s1, e, m := OneTurn(s, now);
  }

  // Nothing in either store changes.
  lemma {:induction false} ReplayChangesNothing(s: State, token: Token, order: OrderId, now: Time)
    requires AtRest(s) && now > s.clock && Replays(s, token, order)
    ensures ProcessPayment(s, token, order, now) == (s, Ok)
  {
    LaterKeepsInv(s, now);
    ReplayRecordsNothing(s, token, order, now);
    PaymentAdvances(s, token, order, now);
    IdleAdvanceDoesNothing(s, now);
  }

  // However much later it comes, and whatever the payer has done since, a webhook that was
  // once answered with success changes nothing when it is repeated.
  lemma {:induction false} ReplayedWebhookIsNoOp(s: State, first: Step, run: seq<Step>, at: Time)
    requires AtRest(s) && first.event.Pay? && Possible(s, first) && first.faults.Healthy?
    requires ProcessPayment(s, first.event.token, first.event.order, first.at).1 == Ok
    requires PossibleRun(Next(s, first), run) && Smooth(run)
    requires at > Outcome(Next(s, first), run).clock
    ensures var s' := Outcome(Next(s, first), run);
      Next(s', Step(first.event, at, Healthy)) == s'.(clock := at)
  {
    var s1 := Next(s, first);
    assert Armed(s, first.faults) == s;
    StepRests(s, first);
    LaterKeepsInv(s, first.at);
    PayTellsTruth(s, first.event.token, first.event.order, first.at);
    NothingLiesIdle(s1, run);
    DecisionsAreFinal(s1, run);
    var s' := Outcome(s1, run);
    assert Replays(s', first.event.token, first.event.order);
    ReplayChangesNothing(s', first.event.token, first.event.order, at);
    assert Armed(s', Healthy) == s';
  }
}
