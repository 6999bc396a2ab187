/**
The state machine of one product: any user, webhook, worker or restart may act next, any
durable write may fail, and the process may die right after one.
*/
module System {
  import opened Models
  import opened CacheScripts
  import opened DurableTx
  import opened Service
  import opened Invariants
  import opened Operations
  import opened Payment
  import opened Joining
  import opened Expiry
  import opened Restart
  import T = Timers

  datatype Event =
    | Join(user: UserId, quantity: int, others: nat, fetched: Option<nat>)
    | Accept(user: UserId, accepted: int)
    | Leave(user: UserId, offerOnly: bool)
    | Pay(token: Token, order: OrderId)
    | Appear(user: UserId)
    | ClaimDue(limit: nat)
    | Handle(claim: T.Claim)
    | GiveUp(claim: T.Claim)        // the worker lost the membership to somebody else
    | Ack(claims: seq<T.Claim>)
    | Nack(claims: seq<T.Claim>)
    | Reclaim
    | Restart(rows: seq<Membership>)

  // at is the instant of the step, faults what becomes of its durable writes.
  datatype Step = Step(event: Event, at: Time, faults: Faults)

  // What the environment guarantees.
  ghost predicate Possible(s: State, x: Step) {
    && x.at > s.clock
    && (s.down ==> x.event.Restart?)
    && match x.event
       case Join(u, _, _, fetched) =>
         u != NO_NAME && (s.db.stock.None? && fetched.Some? ==> fetched.value == s.cfg.initialStock)
       case Handle(c) => c in s.open
       case GiveUp(c) => c in s.open
       case Ack(cs) => forall c :: c in cs ==> c in s.handled
       case Nack(cs) => forall c :: c in cs ==> c in s.failed
       case Restart(rows) => IsSnapshot(s.db, s.product, rows)
       case _ => true
  }

  // The operation alone, under the faults and at the clock of s.
  ghost function Effect(s: State, e: Event, now: Time): State {
    match e
    case Join(u, quantity, others, fetched) => JoinQueue(s, u, quantity, others, fetched, now).0
    case Accept(u, accepted) => AcceptOffer(s, u, accepted, now).0
    case Leave(u, offerOnly) => LeaveQueue(s, u, offerOnly, now).0
    case Pay(token, order) => ProcessPayment(s, token, order, now).0
    case Appear(u) => RefreshPresence(s, u, now)
    case ClaimDue(limit) => ClaimTimers(s, limit, now)
    case Handle(c) => HandleClaim(s, c, now)
    case GiveUp(c) => s.(open := s.open - {c}, failed := s.failed + {c})
    case Ack(cs) => WithTimers(s, T.Ack(s.cache.timers, cs))
    case Nack(cs) => WithTimers(s, T.Nack(s.cache.timers, cs))
    case Reclaim => WithTimers(s, T.Reclaim(s.cache.timers, now))
    case Restart(rows) => Restarted(s, rows, now)
  }

  function Armed(s: State, faults: Faults): State {
    s.(faults := faults)
  }

  ghost function Next(s: State, x: Step): State {
    Effect(Armed(s, x.faults), x.event, x.at).(clock := x.at, faults := Healthy)
  }

  ghost predicate PossibleRun(s: State, run: seq<Step>)
    decreases |run|
  {
    run == [] || (Possible(s, run[0]) && PossibleRun(Next(s, run[0]), run[1..]))
  }

  ghost function Outcome(s: State, run: seq<Step>): State
    decreases |run|
  {
    if run == [] then s else Outcome(Next(s, run[0]), run[1..])
  }

  lemma {:induction false} StepFirst(s: State, x: Step, rest: seq<Step>)
    requires Possible(s, x) && PossibleRun(Next(s, x), rest)
    ensures PossibleRun(s, [x] + rest) && Outcome(s, [x] + rest) == Outcome(Next(s, x), rest)
  {
    assert ([x] + rest)[1..] == rest;
  }

  lemma {:induction false} RunsJoin(s: State, run: seq<Step>, more: seq<Step>)
    requires PossibleRun(s, run) && PossibleRun(Outcome(s, run), more)
    ensures PossibleRun(s, run + more) && Outcome(s, run + more) == Outcome(Outcome(s, run), more)
    decreases |run|
  {
    if run == [] {
      assert run + more == more;
    } else {
      assert (run + more)[0] == run[0] && (run + more)[1..] == run[1..] + more;
      RunsJoin(Next(s, run[0]), run[1..], more);
    }
  }

  // Two empty stores.
  function Initial(product: ProductId, cfg: Config): State {
    State(product, cfg,
      Cache(None, [], 0, map[], map[], {}, {}, T.NO_TIMERS, map[]),
      Durable(None, map[], map[], map[]),
      0, 1, Healthy, false, {}, {}, {})
  }

  lemma {:induction false} InitialInv(product: ProductId, cfg: Config)
    requires cfg.Valid() && product != NO_NAME
    ensures Inv(Initial(product, cfg))
  {
  }

  lemma {:induction false} NextHandles(s: State, c: T.Claim, at: Time)
    ensures var (s', a) := (Next(s, Step(Handle(c), at, Healthy)), HandleClaim(Armed(s, Healthy), c, at));
      s'.db == a.db && s'.cache == a.cache && s'.down == a.down && s'.clock == at
  {
  }

  lemma {:induction false} ArmedInv(s: State, faults: Faults)
    requires Inv(s)
    ensures Inv(Armed(s, faults))
  {
  }

  lemma {:induction false} Ticks(s: State, now: Time)
    requires InvAt(s, now)
    ensures Inv(s.(clock := now, faults := Healthy))
  {
    var s' := s.(clock := now, faults := Healthy);
    assert StoreInv(s', now);
    if !s.down {
      assert TimerInv(s');
    }
  }

  lemma {:induction false} GiveUpKeepsInv(s: State, c: T.Claim, now: Time)
    requires InvAt(s, now) && !s.down && c in s.open
    ensures InvAt(s.(open := s.open - {c}, failed := s.failed + {c}), now)
  {
    FilingKeepsInv(s, s.(open := s.open - {c}, failed := s.failed + {c}), c, now);
  }

  lemma {:induction false} EffectKeepsInv(s: State, e: Event, now: Time)
    requires Inv(s) && !s.down && !e.Restart? && !e.ClaimDue? && Possible(s, Step(e, now, s.faults))
    ensures InvAt(Effect(s, e, now), now)
  {
    LaterKeepsInv(s, now);
    match e
    case Join(u, quantity, others, fetched) => JoinKeepsInv(s, u, quantity, others, fetched, now);
    case Accept(u, accepted) => AcceptKeepsInv(s, u, accepted, now);
    case Leave(u, offerOnly) => LeaveKeepsInv(s, u, offerOnly, now);
    case Pay(token, order) => PaymentKeepsInv(s, token, order, now);
    case Appear(u) => PresenceKeepsInv(s, u, now);
    case Handle(c) => HandleKeepsInv(s, c, now);
    case GiveUp(c) => GiveUpKeepsInv(s, c, now);
    case Ack(cs) => AckKeepsInv(s, cs); LaterKeepsInv(Effect(s, e, now), now);
    case Nack(cs) => NackKeepsInv(s, cs); LaterKeepsInv(Effect(s, e, now), now);
    case Reclaim => ReclaimKeepsInv(s, now); LaterKeepsInv(Effect(s, e, now), now);
  }

  // Every step keeps every invariant, whatever fails and wherever the process dies.
  lemma {:induction false} NextKeepsInv(s: State, x: Step)
    requires Inv(s) && Possible(s, x)
    ensures Inv(Next(s, x))
  {
    var a := Armed(s, x.faults);
    ArmedInv(s, x.faults);
    if x.event.Restart? {
      RestartKeepsInv(a, x.event.rows, x.at);
    } else if x.event.ClaimDue? {
      ClaimTimersKeepsInv(a, x.event.limit, x.at);
      Ticks(Effect(a, x.event, x.at).(clock := x.at), x.at);
    } else {
      EffectKeepsInv(a, x.event, x.at);
      Ticks(Effect(a, x.event, x.at), x.at);
    }
  }

  lemma {:induction false} RunKeepsInv(s: State, run: seq<Step>)
    requires Inv(s) && PossibleRun(s, run)
    ensures Inv(Outcome(s, run))
    decreases |run|
  {
    if run != [] {
      NextKeepsInv(s, run[0]);
      RunKeepsInv(Next(s, run[0]), run[1..]);
    }
  }

  ghost predicate Reachable(s: State) {
    exists product: ProductId, cfg: Config, run ::
      product != NO_NAME && cfg.Valid()
      && PossibleRun(Initial(product, cfg), run) && Outcome(Initial(product, cfg), run) == s
  }

  lemma {:induction false} ReachableInv(s: State)
    requires Reachable(s)
    ensures Inv(s)
  {
    var product: ProductId, cfg: Config, run :|
      product != NO_NAME && cfg.Valid()
      && PossibleRun(Initial(product, cfg), run) && Outcome(Initial(product, cfg), run) == s;
    InitialInv(product, cfg);
    RunKeepsInv(Initial(product, cfg), run);
  }
}
