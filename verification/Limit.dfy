/** The limit on the queues of one user, over all products, runs, crashes and recoveries. */
module Limit {
  import opened Models
  import opened CacheScripts
  import opened DurableTx
  import opened Service
  import opened Invariants
  import opened Payment
  import opened Restart
  import opened System
  import opened Progress
  import opened Frames

  // One process serves all products.
  type World = map<ProductId, State>

  datatype WorldStep =
    | At(product: ProductId, step: Step)
    | RestartAll(rows: map<ProductId, seq<Membership>>, at: Time)

  predicate Down(w: World) {
    exists p :: p in w && w[p].down
  }

  // The products of the user's user-queues set.
  function SlotsOf(w: World, u: UserId): set<ProductId> {
    set p | p in w && u in w[p].cache.slots
  }

  // The products in whose sale the user takes part.
  function LiveIn(w: World, u: UserId): set<ProductId> {
    set p | p in w && u in LiveUsers(w[p].db.members)
  }

  ghost predicate PossibleIn(w: World, x: WorldStep) {
    match x
    case At(p, step) =>
      && p in w && !Down(w) && Possible(w[p], step) && !step.event.Restart?
      && (step.event.Join? ==> step.event.others == |SlotsOf(w, step.event.user) - {p}|)
    case RestartAll(rows, at) =>
      && rows.Keys == w.Keys
      && forall p :: p in w ==> Possible(w[p], Step(Restart(rows[p]), at, Healthy))
  }

  ghost function NextWorld(w: World, x: WorldStep): World
    requires PossibleIn(w, x)
  {
    match x
    case At(p, step) => w[p := Next(w[p], step)]
    case RestartAll(rows, at) => map p | p in w :: Next(w[p], Step(Restart(rows[p]), at, Healthy))
  }

  ghost predicate WorldInv(w: World, limit: nat) {
    && (forall p :: p in w ==> Inv(w[p]) && w[p].cfg.slotLimit == limit)
    && (forall u :: |LiveIn(w, u)| <= limit)
  }

  // At operation boundaries the slot set is the set of products the user takes part in.
  lemma {:induction false} SlotsAreLive(w: World, limit: nat, u: UserId)
    requires WorldInv(w, limit) && !Down(w)
    ensures SlotsOf(w, u) == LiveIn(w, u)
  {
    forall p | p in w
      ensures u in w[p].cache.slots <==> u in LiveUsers(w[p].db.members)
    {
      assert !w[p].down;
      SameStatusSets(w[p].cache, w[p].db);
    }
  }

  lemma {:induction false} JoinRefusedAtLimit(s: State, u: UserId, quantity: int, others: nat, fetched: Option<nat>, now: Time)
    requires Inv(s) && !s.down && u !in LiveUsers(s.db.members) && others >= s.cfg.slotLimit
    ensures JoinQueue(s, u, quantity, others, fetched, now).0 == s
  {
    SameStatusSets(s.cache, s.db);
  }

  // Only a join that found a free slot makes anybody take part.
  lemma {:induction false} OnlyJoinersRevive(s: State, x: Step, u: UserId)
    requires Inv(s) && Possible(s, x)
    requires u in LiveUsers(Next(s, x).db.members) && u !in LiveUsers(s.db.members)
    ensures x.event.Join? && x.event.user == u && x.event.others < s.cfg.slotLimit
  {
    NextProgresses(s, x);
    var a := Armed(s, x.faults);
    ArmedInv(s, x.faults);
    assert Actor(s, x.event, x.at) == Some(u);
    if x.event.Join? {
      if x.event.others >= s.cfg.slotLimit {
        JoinRefusedAtLimit(a, u, x.event.quantity, x.event.others, x.event.fetched, x.at);
      }
    } else {
      OutsidersStayOut(s, x, u);
    }
  }

  lemma {:induction false} OutsiderChangesNothing(s: State, e: Event, u: UserId, now: Time)
    requires u in s.cache.members ==> s.cache.members[u].status.IsTerminal()
    requires (e.Accept? && e.user == u) || (e.Leave? && e.user == u) || (e.Handle? && e.claim.user == u)
    ensures Effect(s, e, now).db == s.db
  {
  }

  lemma {:induction false} OutsidersStayOut(s: State, x: Step, u: UserId)
    requires Inv(s) && Possible(s, x) && !x.event.Join?
    requires Actor(s, x.event, x.at) == Some(u) && u !in LiveUsers(s.db.members)
    ensures Next(s, x).db == s.db
  {
    var a := Armed(s, x.faults);
    ArmedInv(s, x.faults);
    if x.event.Pay? {
      PayerIsLive(a, x.event.token, x.event.order, x.at);
    } else {
      SameStatusSets(a.cache, a.db);
      assert u !in LiveUsers(a.cache.members);
      OutsiderChangesNothing(a, x.event, u, x.at);
    }
  }

  lemma {:induction false} PayerIsLive(s: State, token: Token, order: OrderId, now: Time)
    requires Inv(s) && !s.down && Sells(s, token, order, now)
    ensures s.db.rights[token].user in LiveUsers(s.db.members)
  {
    var m := Holder(s, token, s.clock);
  }

  lemma {:induction false} GrowsWithin(a: set<ProductId>, b: set<ProductId>, p: ProductId)
    requires b <= a + {p}
    ensures |b| <= |a - {p}| + 1
  {
    assert b <= (a - {p}) + {p};
    Subset(b, (a - {p}) + {p});
  }

  lemma {:induction false} Subset(a: set<ProductId>, b: set<ProductId>)
    requires a <= b
    ensures |a| <= |b|
    decreases |a|
  {
    if a != {} {
      var p :| p in a;
      Subset(a - {p}, b - {p});
    }
  }

  lemma {:induction false} OneProductMoves(w: World, p: ProductId, s': State, u: UserId)
    requires p in w
    ensures LiveIn(w[p := s'], u) <= LiveIn(w, u) + {p}
    ensures p in LiveIn(w[p := s'], u) ==> u in LiveUsers(s'.db.members)
    ensures p in LiveIn(w[p := s'], u) || LiveIn(w[p := s'], u) <= LiveIn(w, u)
    ensures p in LiveIn(w, u) <==> u in LiveUsers(w[p].db.members)
  {
  }

  // Whoever comes to take part in a sale had a slot to spare.
  lemma {:induction false} JoinerHasRoom(w: World, limit: nat, p: ProductId, x: Step, u: UserId)
    requires WorldInv(w, limit) && PossibleIn(w, At(p, x))
    requires u in LiveUsers(Next(w[p], x).db.members) && u !in LiveUsers(w[p].db.members)
    ensures |LiveIn(w, u) - {p}| < limit
  {
    OnlyJoinersRevive(w[p], x, u);
    SlotsAreLive(w, limit, u);
  }

  lemma {:induction false} OneMoreFits(w: World, p: ProductId, s': State, u: UserId, limit: nat)
    requires p in w && |LiveIn(w, u)| <= limit
    requires u in LiveUsers(s'.db.members) && u !in LiveUsers(w[p].db.members) ==> |LiveIn(w, u) - {p}| < limit
    ensures |LiveIn(w[p := s'], u)| <= limit
  {
    OneProductMoves(w, p, s', u);
    if u in LiveUsers(s'.db.members) && u !in LiveUsers(w[p].db.members) {
      GrowsWithin(LiveIn(w, u), LiveIn(w[p := s'], u), p);
    } else {
      Subset(LiveIn(w[p := s'], u), LiveIn(w, u));
    }
  }

  lemma {:induction false} StepKeepsLimit(w: World, limit: nat, p: ProductId, x: Step, u: UserId)
    requires WorldInv(w, limit) && PossibleIn(w, At(p, x))
    ensures |LiveIn(w[p := Next(w[p], x)], u)| <= limit
  {
    var s' := Next(w[p], x);
    if u in LiveUsers(s'.db.members) && u !in LiveUsers(w[p].db.members) {
      JoinerHasRoom(w, limit, p, x, u);
    }
    OneMoreFits(w, p, s', u, limit);
  }

  lemma {:induction false} StepKeepsWorld(w: World, limit: nat, p: ProductId, x: Step)
    requires WorldInv(w, limit) && PossibleIn(w, At(p, x))
    ensures WorldInv(NextWorld(w, At(p, x)), limit)
  {
    NextKeepsInv(w[p], x);
    NextFrame(w[p], x);
    var w' := w[p := Next(w[p], x)];
    forall u
      ensures |LiveIn(w', u)| <= limit
    {
      StepKeepsLimit(w, limit, p, x, u);
    }
    OneStateMoves(w, w', limit, p, Next(w[p], x));
  }

  lemma {:induction false} OneStateMoves(w: World, w': World, limit: nat, p: ProductId, s': State)
    requires WorldInv(w, limit) && p in w && Inv(s') && s'.cfg.slotLimit == limit && w' == w[p := s']
    requires forall u :: |LiveIn(w', u)| <= limit
    ensures WorldInv(w', limit)
  {
  }

  lemma {:induction false} RestartKeepsRows(s: State, rows: seq<Membership>, at: Time)
    requires Inv(s) && Possible(s, Step(Restart(rows), at, Healthy))
    ensures var s' := Next(s, Step(Restart(rows), at, Healthy));
      Inv(s') && s'.db == s.db && s'.cfg == s.cfg
  {
    ArmedInv(s, Healthy);
    RestartKeepsInv(Armed(s, Healthy), rows, at);
    NextKeepsInv(s, Step(Restart(rows), at, Healthy));
  }

  ghost predicate Restored(s: State, s': State) {
    Inv(s') && s'.cfg == s.cfg && s'.db == s.db
  }

  lemma {:induction false} SameRowsSameWorld(w: World, w': World, limit: nat)
    requires WorldInv(w, limit) && w'.Keys == w.Keys
    requires forall p :: p in w ==> p in w' && Restored(w[p], w'[p])
    ensures WorldInv(w', limit)
  {
    forall u
      ensures |LiveIn(w', u)| <= limit
    {
      assert LiveIn(w', u) == LiveIn(w, u);
    }
  }

  lemma {:induction false} RestartKeepsProduct(w: World, w': World, rows: map<ProductId, seq<Membership>>, at: Time, p: ProductId)
    requires PossibleIn(w, RestartAll(rows, at)) && w' == NextWorld(w, RestartAll(rows, at)) && p in w && Inv(w[p])
    ensures p in w' && Restored(w[p], w'[p])
  {
    RestartKeepsRows(w[p], rows[p], at);
  }

  lemma {:induction false} RestartKeepsAll(w: World, w': World, limit: nat, rows: map<ProductId, seq<Membership>>, at: Time)
    requires WorldInv(w, limit) && PossibleIn(w, RestartAll(rows, at)) && w' == NextWorld(w, RestartAll(rows, at))
    ensures forall p :: p in w ==> p in w' && Restored(w[p], w'[p])
  {
    forall p | p in w
      ensures p in w' && Restored(w[p], w'[p])
    {
      RestartKeepsProduct(w, w', rows, at, p);
    }
  }

  lemma {:induction false} RestartKeepsWorld(w: World, limit: nat, rows: map<ProductId, seq<Membership>>, at: Time)
    requires WorldInv(w, limit) && PossibleIn(w, RestartAll(rows, at))
    ensures WorldInv(NextWorld(w, RestartAll(rows, at)), limit)
  {
    var w' := NextWorld(w, RestartAll(rows, at));
    RestartKeepsAll(w, w', limit, rows, at);
    SameRowsSameWorld(w, w', limit);
  }

  lemma {:induction false} NextWorldKeepsInv(w: World, limit: nat, x: WorldStep)
    requires WorldInv(w, limit) && PossibleIn(w, x)
    ensures WorldInv(NextWorld(w, x), limit)
  {
    match x
    case At(p, step) => StepKeepsWorld(w, limit, p, step);
    case RestartAll(rows, at) => RestartKeepsWorld(w, limit, rows, at);
  }

  lemma {:induction false} FreshWorldInv(products: set<ProductId>, cfg: Config)
    requires cfg.Valid() && NO_NAME !in products
    ensures WorldInv(map p | p in products :: Initial(p, cfg), cfg.slotLimit)
  {
    var w: World := map p | p in products :: Initial(p, cfg);
    forall p | p in w
      ensures Inv(w[p])
    {
      InitialInv(p, cfg);
    }
    forall u
      ensures |LiveIn(w, u)| <= cfg.slotLimit
    {
      assert LiveIn(w, u) == {};
    }
  }

  ghost predicate PossibleRunIn(w: World, run: seq<WorldStep>)
    decreases |run|
  {
    run == [] || (PossibleIn(w, run[0]) && PossibleRunIn(NextWorld(w, run[0]), run[1..]))
  }

  ghost function OutcomeIn(w: World, run: seq<WorldStep>): World
    requires PossibleRunIn(w, run)
    decreases |run|
  {
    if run == [] then w else OutcomeIn(NextWorld(w, run[0]), run[1..])
  }

  // Although writing a live membership occupies a slot without looking at the limit, no
  // run, crash or recovery ever gives a user more slots than that.
  lemma {:induction false} LimitHolds(w: World, limit: nat, run: seq<WorldStep>)
    requires WorldInv(w, limit) && PossibleRunIn(w, run)
    ensures WorldInv(OutcomeIn(w, run), limit)
    ensures !Down(OutcomeIn(w, run)) ==>
      forall u :: SlotsOf(OutcomeIn(w, run), u) == LiveIn(OutcomeIn(w, run), u)
        && |SlotsOf(OutcomeIn(w, run), u)| <= limit
    decreases |run|
  {
    if run != [] {
      NextWorldKeepsInv(w, limit, run[0]);
      LimitHolds(NextWorld(w, run[0]), limit, run[1..]);
    } else if !Down(w) {
      forall u
        ensures SlotsOf(w, u) == LiveIn(w, u) && |SlotsOf(w, u)| <= limit
      {
        SlotsAreLive(w, limit, u);
      }
    }
  }
}
