/**
The service and the stock owner together: what the operations do to stock and outbox rows is
a run of the exchange, so what holds of its runs holds of the service's own rows.
*/
module Ledger {
  import opened Models
  import opened MapSums
  import opened CacheScripts
  import opened DurableTx
  import opened Service
  import opened Invariants
  import opened Restart
  import opened System
  import F = Frames
  import T = Timers
  import R = OutboxRuns
  import X = Outbox

  // ---- Only first contact and payment touch stock and outbox rows ----

  predicate SameLedger(d: Durable, d': Durable) {
    d'.stock == d.stock && d'.outbox == d.outbox
  }

  lemma {:induction false} TurnLeavesLedger(s: State, p: Popped, now: Time)
    requires p.Popped?
    ensures SameLedger(s.db, ApplyAdvanceStep(s, p, now).0.db)
  {
    if p.entry.user in s.cache.members {
      var m := s.cache.members[p.entry.user].(updatedAt := now);
      match p.status
      case Some(RightActive) => GrantTurnLeavesLedger(s, p, m, now);
      case Some(OfferPending) => OfferTurnLeavesLedger(s, p, m, now);
      case _ =>
    }
  }

  lemma {:induction false} SettleKeepsRows(w: (State, Ended), m: Membership, r: Option<Right>, now: Time, e: Entry, n: int)
    ensures Settle(w, m, r, now, e, n).0.db == w.0.db
  {
  }

  lemma {:induction false} GrantTurnLeavesLedger(s: State, p: Popped, m: Membership, now: Time)
    requires p.Popped?
    ensures var r := NewRight(s, m, p.granted, now);
      SameLedger(s.db, Settle(Persist(TokenSpent(s), IssueRight(s.db, r, Holding(m, r), now)), Holding(m, r), Some(r), now, p.entry, p.granted).0.db)
  {
    var r := NewRight(s, m, p.granted, now);
    var w := Persist(TokenSpent(s), IssueRight(s.db, r, Holding(m, r), now));
    SettleKeepsRows(w, Holding(m, r), Some(r), now, p.entry, p.granted);
  }

  lemma {:induction false} OfferTurnLeavesLedger(s: State, p: Popped, m: Membership, now: Time)
    requires p.Popped?
    ensures var m' := Offered(m, p.offered, now + s.cfg.offerTtl);
      SameLedger(s.db, Settle(Persist(s, UpsertMembership(s.db, m', now)), m', None, now, p.entry, p.offered).0.db)
  {
    var m' := Offered(m, p.offered, now + s.cfg.offerTtl);
    SettleKeepsRows(Persist(s, UpsertMembership(s.db, m', now)), m', None, now, p.entry, p.offered);
  }

  lemma {:induction false} AdvanceLeavesLedger(s: State, now: Time)
    ensures SameLedger(s.db, AdvanceQueue(s, now).0.db)
    decreases |s.cache.queue|
  {
    var (popped, p) := PopAndAllocate(s.cache);
    if !p.NoOne? && p.status != Some(Queued) {
      var s1 := s.(cache := popped);
      if !Decides(p) {
        AdvanceLeavesLedger(s1, now);
      } else {
        TurnLeavesLedger(s1, p, now);
        var step := ApplyAdvanceStep(s1, p, now);
        if step.1.Finished? {
          AdvanceLeavesLedger(step.0, now);
        }
      }
    }
  }

  lemma {:induction false} AcceptLeavesLedger(s: State, u: UserId, accepted: int, now: Time)
    ensures SameLedger(s.db, AcceptOffer(s, u, accepted, now).0.db)
  {
    if u in s.cache.members && s.cache.members[u].available.Some? {
      AdvanceLeavesLedger(TakeOffer(s, s.cache.members[u], accepted, now).0, now);
    }
  }

  lemma {:induction false} EndOfferLeavesLedger(s: State, m: Membership, stamp: Time, removeTimer: bool, skip: bool, now: Time)
    requires m.available.Some?
    ensures SameLedger(s.db, EndOffer(s, m, stamp, removeTimer, skip, now).0.db)
  {
    AdvanceLeavesLedger(CloseOffer(s, m, stamp, removeTimer, now).0, now);
  }

  lemma {:induction false} ExpiryLeavesLedger(d: Durable, token: Token, m: Membership, now: Time)
    ensures var tx := ExpireRight(d, token, m, now); tx.TxResult? ==> SameLedger(d, tx.db)
  {
  }

  lemma {:induction false} ExpireLeavesLedger(s: State, m: Membership, stamp: Time, removeTimer: bool, now: Time)
    ensures SameLedger(s.db, ExpireActiveRight(s, m, stamp, removeTimer, now).0.db)
  {
    if m.token.Some? {
      ExpiryLeavesLedger(s.db, m.token.value, m.Settled(Declined, stamp), now);
      var tx := ExpireRight(s.db, m.token.value, m.Settled(Declined, stamp), now);
      if tx.TxResult? {
        AdvanceLeavesLedger(ExpireHeld(s, m, tx.db, tx.right, stamp, removeTimer, now).0, now);
      }
    }
  }

  lemma {:induction false} LeaveLeavesLedger(s: State, u: UserId, offerOnly: bool, now: Time)
    ensures SameLedger(s.db, LeaveQueue(s, u, offerOnly, now).0.db)
  {
    if u in s.cache.members {
      var m := s.cache.members[u];
      QuitLeavesLedger(s, m.Settled(Declined, now), now);
      ExpireLeavesLedger(s, m, now, true, now);
      if m.available.Some? {
        EndOfferLeavesLedger(s, m, now, true, m.available.value <= 0, now);
      }
    }
  }

  lemma {:induction false} QuitLeavesLedger(s: State, final: Membership, now: Time)
    ensures SameLedger(s.db, QuitQueue(s, final, now).0.db)
  {
  }

  lemma {:induction false} ExpireNowLeavesLedger(s: State, m: Membership, pass: Time, now: Time)
    ensures SameLedger(s.db, ExpireNow(s, m, pass, now).0.db)
  {
    match m.status
    case Queued => QuitLeavesLedger(s, m.(status := Declined, updatedAt := pass), now);
    case RightActive => ExpireLeavesLedger(s, m, now, false, now);
    case _ =>
      if m.available.Some? {
        EndOfferLeavesLedger(s, m, pass, false, false, now);
      }
  }

  lemma {:induction false} HandleLeavesLedger(s: State, c: T.Claim, now: Time)
    ensures SameLedger(s.db, HandleClaim(s, c, now).db)
  {
    if c.user in s.cache.members {
      ExpireNowLeavesLedger(s, s.cache.members[c.user], c.pass, now);
    }
  }

  lemma {:induction false} GrantLeavesLedger(s: State, m: Membership, a: Allocation, now: Time)
    requires a.granted == m.quantity
    ensures SameLedger(s.db, ProcessAllocation(s, m, a, now).0.db)
  {
  }

  lemma {:induction false} PartLeavesLedger(s: State, m: Membership, a: Allocation, now: Time)
    requires a.granted != m.quantity
    ensures SameLedger(s.db, ProcessAllocation(s, m, a, now).0.db)
  {
  }

  lemma {:induction false} AdmitLeavesLedger(s: State, u: UserId, quantity: int, now: Time)
    ensures SameLedger(s.db, Admit(s, u, quantity, now).0.db)
  {
    var (c, a) := TryAllocate(s.cache, quantity);
    if a.granted == quantity {
      GrantLeavesLedger(s.(cache := c), NewMembership(s, u, quantity, now), a, now);
    } else {
      PartLeavesLedger(s.(cache := c), NewMembership(s, u, quantity, now), a, now);
    }
  }

  lemma {:induction false} JoinAtMostContacts(s: State, u: UserId, quantity: int, others: nat, fetched: Option<nat>, now: Time)
    ensures var d' := JoinQueue(s, u, quantity, others, fetched, now).0.db;
      SameLedger(s.db, d')
      || (s.db.stock.None? && fetched.Some? && d'.stock == Some(StockRow(s.product, fetched.value, fetched.value)) && d'.outbox == s.db.outbox)
  {
    if fetched.Some? {
      var s1 := s.(cache := OccupySlot(s.cache, u, others, s.cfg.slotLimit).0);
      TouchAtMostContacts(s1, fetched.value);
      AdmitLeavesLedger(Touch(s1, fetched.value).0, u, quantity, now);
    }
  }

  lemma {:induction false} TouchAtMostContacts(s: State, total: nat)
    ensures var d' := Touch(s, total).0.db;
      SameLedger(s.db, d') || (s.db.stock.None? && d'.stock == Some(StockRow(s.product, total, total)) && d'.outbox == s.db.outbox)
  {
  }

  // One order, and its units out of the stock.
  predicate OneOrder(d: Durable, d': Durable, token: Token) {
    && d.stock.Some? && token in d.rights && d.rights[token].status.Active?
    && d'.stock == Some(d.stock.value.(count := d.stock.value.count - d.rights[token].quantity))
    && token in d'.outbox && d'.outbox == d.outbox[token := d'.outbox[token]]
    && d'.outbox[token].quantity == d.rights[token].quantity && d'.outbox[token].product == d.rights[token].product
    && d.rights[token].quantity <= d.stock.value.count
  }

  lemma {:induction false} SaleIsOrder(d: Durable, token: Token, order: OrderId, now: Time)
    ensures var tx := UseRight(d, token, order, now);
      tx.TxResult? ==> tx.db == d || OneOrder(d, tx.db, token)
  {
  }

  lemma {:induction false} PayAtMostOrders(s: State, token: Token, order: OrderId, now: Time)
    ensures var d' := ProcessPayment(s, token, order, now).0.db; SameLedger(s.db, d') || OneOrder(s.db, d', token)
  {
    SaleIsOrder(s.db, token, order, now);
    var tx := UseRight(s.db, token, order, now);
    if tx.TxResult? {
      var w := Persist(s, tx.db);
      AdvanceLeavesLedger(RecordPayment(w.0, tx.right, tx.transitioned, now), now);
    }
  }

  // What a step may do to the ledger.
  predicate LedgerMoves(s: State, x: Step, d': Durable) {
    || SameLedger(s.db, d')
    || (x.event.Join? && s.db.stock.None? && d'.outbox == s.db.outbox
        && d'.stock == Some(StockRow(s.product, s.cfg.initialStock, s.cfg.initialStock)))
    || (x.event.Pay? && OneOrder(s.db, d', x.event.token))
  }

  lemma {:induction false} OthersLeaveLedger(s: State, e: Event, now: Time)
    requires !e.Join? && !e.Pay? && (e.Restart? ==> Inv(s) && now > s.clock && IsSnapshot(s.db, s.product, e.rows))
    ensures SameLedger(s.db, Effect(s, e, now).db)
  {
    match e
    case Accept(u, accepted) => AcceptLeavesLedger(s, u, accepted, now);
    case Leave(u, offerOnly) => LeaveLeavesLedger(s, u, offerOnly, now);
    case Handle(c) => HandleLeavesLedger(s, c, now);
    case Restart(rows) => RestartKeepsInv(s, rows, now);
    case _ =>
  }

  lemma {:induction false} NextMovesLedger(s: State, x: Step)
    requires Inv(s) && Possible(s, x)
    ensures LedgerMoves(s, x, Next(s, x).db)
  {
    var a := Armed(s, x.faults);
    ArmedInv(s, x.faults);
    match x.event
    case Join(u, quantity, others, fetched) => JoinAtMostContacts(a, u, quantity, others, fetched, x.at);
    case Pay(token, order) => PayAtMostOrders(a, token, order, x.at);
    case _ => OthersLeaveLedger(a, x.event, x.at);
  }

  // ---- The exchange seen from the service ----

  // The event of an order is numbered by its right. Nobody has asked for the product before
  // the service does.
  predicate Mirrors(d: Durable, product: ProductId, initial: nat, x: X.Exchange) {
    && x.receiver.defaultStock == initial
    && x.local == (if d.stock.Some? then map[product := d.stock.value.count] else map[])
    && (d.stock.None? ==> product !in x.receiver.counts)
    && x.events.Keys == d.outbox.Keys
    && forall t :: t in d.outbox ==> d.outbox[t].product == product && X.SameOrder(x.events[t], product, d.outbox[t].quantity)
  }

  // What a step of the service is in the exchange.
  ghost function ServiceActions(s: State, x: Step): seq<X.Action> {
    var d' := Next(s, x).db;
    if s.db.stock.None? && d'.stock.Some? then [X.FirstContact(s.product)]
    else if x.event.Pay? && x.event.token !in s.db.outbox && x.event.token in d'.outbox then
      [X.Pay(x.event.token, s.product, d'.outbox[x.event.token].quantity, x.at)]
    else []
  }

  lemma {:induction false} OneAction(x: X.Exchange, a: X.Action)
    requires X.Possible(x, a)
    ensures X.PossibleRun(x, [a]) && X.Outcome(x, [a]) == X.Next(x, a)
  {
    assert [a][1..] == [];
  }

  lemma {:induction false} ContactMirrors(d: Durable, d': Durable, product: ProductId, initial: nat, x: X.Exchange)
    requires Mirrors(d, product, initial, x) && d.stock.None? && d.outbox == map[]
    requires d'.stock == Some(StockRow(product, initial, initial)) && d'.outbox == d.outbox
    ensures X.Possible(x, X.FirstContact(product))
    ensures Mirrors(d', product, initial, X.Next(x, X.FirstContact(product)))
  {
  }

  lemma {:induction false} OrderMirrors(d: Durable, d': Durable, product: ProductId, initial: nat, x: X.Exchange, token: Token, at: Time)
    requires Mirrors(d, product, initial, x) && OneOrder(d, d', token) && token !in d.outbox
    requires d.rights[token].product == product && d.rights[token].quantity > 0
    ensures X.Possible(x, X.Pay(token, product, d'.outbox[token].quantity, at))
    ensures Mirrors(d', product, initial, X.Next(x, X.Pay(token, product, d'.outbox[token].quantity, at)))
  {
  }

  lemma {:induction false} NoOrdersYet(s: State)
    requires Inv(s) && s.db.stock.None?
    ensures s.db.outbox == map[]
  {
    assert forall t :: t in s.db.outbox ==> t in s.db.rights;
  }

  // An active right has not been ordered yet.
  lemma {:induction false} NotYetOrdered(s: State, token: Token)
    requires Inv(s) && token in s.db.rights && s.db.rights[token].status.Active?
    ensures token !in s.db.outbox && s.db.rights[token].product == s.product && s.db.rights[token].quantity > 0
  {
    assert RightShape(s.db.rights[token], s.product);
  }

  // Every step of the service is at most one action of the exchange, and a possible one.
  lemma {:induction false} StepProjects(s: State, x: Step, e: X.Exchange)
    requires Inv(s) && Possible(s, x) && Mirrors(s.db, s.product, s.cfg.initialStock, e)
    ensures X.PossibleRun(e, ServiceActions(s, x)) && |ServiceActions(s, x)| <= 1
    ensures Mirrors(Next(s, x).db, s.product, s.cfg.initialStock, X.Outcome(e, ServiceActions(s, x)))
  {
    NextMovesLedger(s, x);
    var d' := Next(s, x).db;
    if s.db.stock.None? {
      NoOrdersYet(s);
      if d'.stock.Some? {
        ContactMirrors(s.db, d', s.product, s.cfg.initialStock, e);
        OneAction(e, X.FirstContact(s.product));
      }
    } else if !SameLedger(s.db, d') {
      var t := x.event.token;
      NotYetOrdered(s, t);
      OrderMirrors(s.db, d', s.product, s.cfg.initialStock, e, t, x.at);
      OneAction(e, X.Pay(t, s.product, d'.outbox[t].quantity, x.at));
    }
  }

  // ---- Both together ----

  predicate IsDelivery(a: X.Action) {
    !a.FirstContact? && !a.Pay?
  }

  lemma {:induction false} DeliveryNeedsEvent(e: X.Exchange, a: X.Action)
    requires X.ExchangeInv(e) && IsDelivery(a) && X.Possible(e, a)
    ensures e.events != map[]
  {
    if !a.Claim? {
      assert X.JobOk(e.jobs[a.job], e.events, e.receiver.processed);
    }
  }

  lemma {:induction false} DeliveryLeavesRows(d: Durable, product: ProductId, initial: nat, e: X.Exchange, a: X.Action)
    requires Mirrors(d, product, initial, e) && IsDelivery(a) && X.Possible(e, a) && d.stock.Some?
    ensures Mirrors(d, product, initial, X.Next(e, a))
  {
  }

  // Claims, requests, acknowledgements and deaths of workers leave the service's rows alone.
  lemma {:induction false} DeliveryProjects(s: State, e: X.Exchange, a: X.Action)
    requires Inv(s) && Mirrors(s.db, s.product, s.cfg.initialStock, e) && X.ExchangeInv(e)
    requires IsDelivery(a) && X.Possible(e, a)
    ensures Mirrors(s.db, s.product, s.cfg.initialStock, X.Next(e, a))
  {
    DeliveryNeedsEvent(e, a);
    if s.db.stock.None? {
      NoOrdersYet(s);
    } else {
      DeliveryLeavesRows(s.db, s.product, s.cfg.initialStock, e, a);
    }
  }

  datatype Whole = Whole(service: State, exchange: X.Exchange)

  // The service takes a step, or a delivery goes on.
  datatype Move = Serve(step: Step) | Deliver(action: X.Action)

  ghost predicate PossibleMove(w: Whole, m: Move) {
    match m
    case Serve(x) => Possible(w.service, x)
    case Deliver(a) => IsDelivery(a) && X.Possible(w.exchange, a)
  }

  // The actions that m is in the exchange.
  ghost function ActionsOf(w: Whole, m: Move): seq<X.Action> {
    match m
    case Serve(x) => ServiceActions(w.service, x)
    case Deliver(a) => [a]
  }

  ghost predicate WholeInv(w: Whole) {
    && Inv(w.service) && X.ExchangeInv(w.exchange)
    && Mirrors(w.service.db, w.service.product, w.service.cfg.initialStock, w.exchange)
  }

  ghost function Through(e: X.Exchange, run: seq<X.Action>): X.Exchange {
    if X.PossibleRun(e, run) then X.Outcome(e, run) else e
  }

  ghost function After(w: Whole, m: Move): Whole {
    Whole(if m.Serve? then Next(w.service, m.step) else w.service, Through(w.exchange, ActionsOf(w, m)))
  }

  lemma {:induction false} MoveProjects(w: Whole, m: Move)
    requires WholeInv(w) && PossibleMove(w, m)
    ensures X.PossibleRun(w.exchange, ActionsOf(w, m)) && WholeInv(After(w, m))
  {
    match m
    case Serve(x) =>
      NextKeepsInv(w.service, x);
      F.NextFrame(w.service, x);
      StepProjects(w.service, x, w.exchange);
      X.RunKeepsExchange(w.exchange, ServiceActions(w.service, x));
    case Deliver(a) =>
      DeliveryProjects(w.service, w.exchange, a);
      OneAction(w.exchange, a);
      X.NextKeepsExchange(w.exchange, a);
  }

  ghost predicate PossibleMoves(w: Whole, moves: seq<Move>)
    decreases |moves|
  {
    moves == []
    || (PossibleMove(w, moves[0]) && PossibleMoves(After(w, moves[0]), moves[1..]))
  }

  ghost function AfterAll(w: Whole, moves: seq<Move>): Whole
    decreases |moves|
  {
    if moves == [] then w else AfterAll(After(w, moves[0]), moves[1..])
  }

  // Whatever the service does and however deliveries interleave with it, the exchange goes
  // through a run of its own, and its stock and events are the service's rows.
  lemma {:induction false} MovesProject(w: Whole, moves: seq<Move>) returns (run: seq<X.Action>)
    requires WholeInv(w) && PossibleMoves(w, moves)
    ensures X.PossibleRun(w.exchange, run) && X.Outcome(w.exchange, run) == AfterAll(w, moves).exchange
    ensures WholeInv(AfterAll(w, moves))
    decreases |moves|
  {
    if moves == [] {
      run := [];
    } else {
      MoveProjects(w, moves[0]);
      var rest := MovesProject(After(w, moves[0]), moves[1..]);
      R.RunsJoin(w.exchange, ActionsOf(w, moves[0]), rest);
      run := ActionsOf(w, moves[0]) + rest;
    }
  }

  // The orders that the stock owner has not applied yet.
  function PendingOf(outbox: map<Token, OutboxRow>, processed: map<X.EventId, X.Operation>): map<Token, int> {
    map t | t in outbox :: if t in processed then 0 else outbox[t].quantity
  }

  ghost function Pending(w: Whole): int {
    Sum(PendingOf(w.service.db.outbox, w.exchange.receiver.processed))
  }

  lemma {:induction false} PendingIsUnapplied(d: Durable, product: ProductId, initial: nat, e: X.Exchange)
    requires Mirrors(d, product, initial, e)
    ensures Sum(PendingOf(d.outbox, e.receiver.processed)) == X.Unapplied(e, product)
  {
    assert PendingOf(d.outbox, e.receiver.processed) == X.UnappliedOf(e.events, e.receiver.processed, product);
  }

  lemma {:induction false} OpeningInv(product: ProductId, cfg: Config)
    requires cfg.Valid() && product != NO_NAME
    ensures WholeInv(Whole(Initial(product, cfg), X.Opening(cfg.initialStock)))
  {
    InitialInv(product, cfg);
    X.RunKeepsExchange(X.Opening(cfg.initialStock), []);
  }

  // From empty stores: the stock owner has product_count and what the outbox still owes it;
  // once every event is acknowledged the two stocks are equal.
  lemma {:induction false} OwnerFollowsService(product: ProductId, cfg: Config, moves: seq<Move>)
    requires cfg.Valid() && product != NO_NAME
    requires PossibleMoves(Whole(Initial(product, cfg), X.Opening(cfg.initialStock)), moves)
    ensures var w := AfterAll(Whole(Initial(product, cfg), X.Opening(cfg.initialStock)), moves);
      && w.exchange.events.Keys == w.service.db.outbox.Keys
      && (w.service.db.stock.Some? ==>
            var (count, owner) := (w.service.db.stock.value.count, w.exchange.receiver.Count(w.service.product));
            owner == count + Pending(w)
            && ((forall t :: t in w.service.db.outbox ==> w.exchange.events[t].delivered) ==> owner == count))
  {
    var w0 := Whole(Initial(product, cfg), X.Opening(cfg.initialStock));
    OpeningInv(product, cfg);
    var run := MovesProject(w0, moves);
    var w := AfterAll(w0, moves);
    PendingIsUnapplied(w.service.db, w.service.product, w.service.cfg.initialStock, w.exchange);
    OwnerAgrees(w);
  }

  lemma {:induction false} OwnerAgrees(w: Whole)
    requires WholeInv(w) && Pending(w) == X.Unapplied(w.exchange, w.service.product)
    ensures w.service.db.stock.Some? ==>
      var (count, owner) := (w.service.db.stock.value.count, w.exchange.receiver.Count(w.service.product));
      owner == count + Pending(w)
      && ((forall t :: t in w.service.db.outbox ==> w.exchange.events[t].delivered) ==> owner == count)
  {
    var x := w.exchange;
    if w.service.db.stock.Some? {
      assert w.service.product in x.local;
      if forall t :: t in w.service.db.outbox ==> x.events[t].delivered {
        X.NothingUnapplied(x, w.service.product);
      }
    }
  }
}
