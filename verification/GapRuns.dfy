/** Two runs from empty stores into the window between a pop and its claim. */
module GapRuns {
  import opened Models
  import opened MapSums
  import opened CacheScripts
  import opened DurableTx
  import opened Service
  import opened Invariants
  import opened Moves
  import opened System
  import opened Gap
  import T = Timers

  // ---- A run that loses a unit ----

  const CFG: Config := Config(1000, 1000, 1000, 1, 2)

  const HOLDER: Membership := Membership(1, 1, RightActive, 2, None, Some(1), Some(1010), 10, 10)
  const RIGHT: Right := Right(1, 1, 1, 2, Active, None, 10, 1010, None)
  const WAITER: Membership := Membership(1, 2, Queued, 1, None, None, None, 20, 20)

  // User 1 takes both units, user 2 queues for one.
  const RUN: seq<Step> := [
    Step(Join(1, 2, 0, Some(2)), 10, Healthy),
    Step(Join(2, 1, 0, Some(2)), 20, Healthy)]

  const FIRST: State := State(
    1, CFG,
    Cache(Some(Stock(2, 0)), [], 0, map[1 := HOLDER], map[1 := RIGHT], {1}, {}, T.Timers(map[1 := 1], map[], map[]), map[]),
    Durable(Some(StockRow(1, 2, 2)), map[1 := HOLDER], map[1 := RIGHT], map[]),
    10, 2, Healthy, false, {}, {}, {})

  const SECOND: State := FIRST.(
    cache := FIRST.cache.(queue := [Entry(1, 2)], lastScore := 1, members := map[1 := HOLDER, 2 := WAITER],
                          slots := {1, 2}, index := {2}, timers := T.Timers(map[1 := 1, 2 := 1], map[], map[])),
    db := FIRST.db.(members := map[1 := HOLDER, 2 := WAITER]),
    clock := 20)

  lemma {:induction false} FirstJoins()
    ensures Possible(Initial(1, CFG), RUN[0]) && Next(Initial(1, CFG), RUN[0]) == FIRST
  {
  }

  lemma {:induction false} SecondQueues()
    ensures Possible(FIRST, RUN[1]) && Next(FIRST, RUN[1]) == SECOND
  {
    assert Enqueue(FIRST.cache, 2).queue == [Entry(1, 2)];
  }

  lemma {:induction false} RunIsPossible()
    ensures PossibleRun(Initial(1, CFG), RUN) && Outcome(Initial(1, CFG), RUN) == SECOND
  {
    FirstJoins();
    SecondQueues();
    StepFirst(FIRST, RUN[1], []);
    StepFirst(Initial(1, CFG), RUN[0], [RUN[1]]);
    assert RUN == [RUN[0]] + [RUN[1]];
  }

  const GONE: Membership := HOLDER.(status := Declined, token := None, expiresAt := None, updatedAt := 30)

  // User 1 leaves; its two units are back in the pool, and the queue is about to advance.
  const RELEASED: State := SECOND.(
    cache := SECOND.cache.(stock := Some(Stock(2, 2)), members := map[1 := GONE, 2 := WAITER],
                           rights := map[1 := RIGHT.(status := Expired)], slots := {2},
                           timers := T.Timers(map[2 := 1], map[], map[])),
    db := SECOND.db.(members := map[1 := GONE, 2 := WAITER], rights := map[1 := RIGHT.(status := Expired)]))

  lemma {:induction false} LeaveReleases()
    ensures LeaveQueue(SECOND, 1, false, 30).0 == AdvanceQueue(RELEASED, 30).0
  {
    var tx := ExpireRight(SECOND.db, 1, GONE, 30);
    assert SECOND.db.members[1 := GONE] == RELEASED.db.members;
    assert SECOND.db.rights[1 := RIGHT.(status := Expired)] == RELEASED.db.rights;
    assert tx.TxResult? && tx.transitioned && tx.right == RIGHT.(status := Expired);
    assert tx.db.members == RELEASED.db.members;
    assert tx.db.rights == RELEASED.db.rights;
    assert tx.db.stock == RELEASED.db.stock && tx.db.outbox == RELEASED.db.outbox;
    assert tx == TxResult(RELEASED.db, RIGHT.(status := Expired), true);
    var s' := ExpireHeld(SECOND, HOLDER, tx.db, tx.right, 30, true, 30).0;
    assert s'.cache.members == RELEASED.cache.members && s'.cache.rights == RELEASED.cache.rights;
    assert s'.cache.slots == RELEASED.cache.slots;
    assert s'.cache.timers.scheduled == RELEASED.cache.timers.scheduled;
    assert s' == RELEASED;
  }

  // The advance pops user 2, and before it has the claim the user leaves and joins again.
  function Popping(): State {
    RELEASED.(cache := PopAndAllocate(RELEASED.cache).0)
  }

  function Rejoined(): State {
    JoinQueue(LeaveQueue(Popping(), 2, false, 31).0, 2, 1, 0, Some(2), 32).0
  }

  lemma {:induction false} PoppedOne()
    ensures PopAndAllocate(RELEASED.cache).1 == Popped(Entry(1, 2), 1, 0, Some(RightActive))
    ensures Popping().cache == RELEASED.cache.(stock := Some(Stock(2, 1)), queue := [], index := {})
  {
    assert Without([Entry(1, 2)], 2) == [];
  }

  const LEFT: Membership := WAITER.(status := Declined, updatedAt := 31)

  predicate HasLeft(s: State) {
    && s.cache.stock == Some(Stock(2, 1)) && s.cache.lastScore == 1
    && s.cache.queue == [] && s.cache.slots == {} && s.cache.index == {}
    && s.cache.rights == RELEASED.db.rights && s.cache.members == map[1 := GONE, 2 := LEFT]
    && s.db == RELEASED.db.(members := map[1 := GONE, 2 := LEFT])
    && s.cfg == CFG && s.faults.Healthy? && s.nextToken == 2 && !s.down && s.product == 1
  }

  lemma {:induction false} LeftQueue()
    ensures HasLeft(LeaveQueue(Popping(), 2, false, 31).0)
  {
    PoppedOne();
  }

  const AGAIN: Membership := Membership(1, 2, RightActive, 1, None, Some(2), Some(1032), 32, 32)
  const NEW_RIGHT: Right := Right(2, 2, 1, 1, Active, None, 32, 1032, None)

  predicate IsBack(s: State) {
    && s.cache.stock == Some(Stock(2, 0)) && s.db.stock == Some(StockRow(1, 2, 2)) && s.faults.Healthy? && !s.down
    && s.cfg == CFG && s.nextToken == 3 && s.cache.lastScore == 1
    && s.cache.members == s.db.members == map[1 := GONE, 2 := AGAIN]
    && s.cache.rights == s.db.rights == RELEASED.db.rights[2 := NEW_RIGHT]
    && s.cache.queue == [] && s.cache.index == {} && s.cache.slots == {2}
  }

  lemma {:induction false} JoinsAgain(s: State)
    requires HasLeft(s)
    ensures IsBack(JoinQueue(s, 2, 1, 0, Some(2), 32).0)
  {
  }

  lemma {:induction false} GotRight()
    ensures IsBack(Rejoined())
  {
    LeftQueue();
    JoinsAgain(LeaveQueue(Popping(), 2, false, 31).0);
  }

  lemma {:induction false} HeldOfTwo(m: Membership, n: Membership)
    requires m.Units() == 0
    ensures Held(map[1 := m, 2 := n]) == n.Units()
  {
    HeldAfter(map[], 1, m);
    HeldAfter(map[1 := m], 2, n);
    SumAllZero(UnitsOf(map[]));
    assert map[][1 := m][2 := n] == map[1 := m, 2 := n];
  }

  // User 1 is out, and user 2 holds what the row says; the pop has taken the unit it decided.
  lemma {:induction false} IsInFlight(s: State, m: Membership)
    requires (m == AGAIN && s.db.rights == RELEASED.db.rights[2 := NEW_RIGHT])
          || (m == LEFT && s.db.rights == RELEASED.db.rights)
    requires s.cache.stock == Some(Stock(2, 1 - m.Units())) && s.db.stock == Some(StockRow(1, 2, 2))
    requires !s.down && s.cfg == CFG && s.nextToken !in s.db.rights
    requires s.cache.members == s.db.members == map[1 := GONE, 2 := m] && s.cache.rights == s.db.rights
    requires s.cache.queue == [] && s.cache.lastScore == 1 && s.cache.index == {} && s.cache.slots == LiveUsers(s.cache.members)
    ensures InFlight(s, Popped(Entry(1, 2), 1, 0, Some(RightActive)), m)
  {
    HeldOfTwo(GONE, m);
    NobodyWaits(s.cache, m);
  }

  lemma {:induction false} NobodyWaits(c: Cache, m: Membership)
    requires m == AGAIN || m == LEFT
    requires c.members == map[1 := GONE, 2 := m] && c.queue == [] && c.lastScore == 1 && c.index == {}
    requires c.slots == LiveUsers(c.members)
    ensures RestOfQueue(c, Entry(1, 2), m)
  {
    assert QueuedUsers(c.members) == {};
    assert Users(c.queue) == {};
  }

  // ---- Somebody leaves and joins again: a unit is lost ----

  lemma {:induction false} RejoinedInFlight()
    ensures InFlight(Rejoined(), PopAndAllocate(RELEASED.cache).1, AGAIN)
  {
    PoppedOne();
    GotRight();
    assert LiveUsers(Rejoined().cache.members) == {2};
    IsInFlight(Rejoined(), AGAIN);
  }

  lemma {:induction false} UnitIsLost()
    ensures AddsUp(Rejoined(), 1)
    ensures !AddsUp(ApplyAdvanceStep(Rejoined(), PopAndAllocate(RELEASED.cache).1, 33).0, 0)
  {
    PoppedOne();
    RejoinedInFlight();
    GotRight();
    LosesUnit(Rejoined());
  }

  lemma {:induction false} LosesUnit(s: State)
    requires InFlight(s, Popped(Entry(1, 2), 1, 0, Some(RightActive)), AGAIN) && s.faults.Healthy?
    ensures !AddsUp(ApplyAdvanceStep(s, Popped(Entry(1, 2), 1, 0, Some(RightActive)), 33).0, 0)
  {
    var p := Popped(Entry(1, 2), 1, 0, Some(RightActive));
    assert ApplyAdvanceStep(s, p, 33).1.Finished?;
    SumIff(s, p, AGAIN, 33);
  }

  // The rejoined user already holds the second unit; the pop gives it the first one on top,
  // and a unit is in nobody's hands.
  lemma {:induction false} LeaveAndRejoinLosesUnit()
    ensures PossibleRun(Initial(1, CFG), RUN) && Outcome(Initial(1, CFG), RUN) == SECOND
    ensures LeaveQueue(SECOND, 1, false, 30).0 == AdvanceQueue(RELEASED, 30).0 && AddsUp(RELEASED, 0)
    ensures AddsUp(Rejoined(), 1)
    ensures !AddsUp(ApplyAdvanceStep(Rejoined(), PopAndAllocate(RELEASED.cache).1, 33).0, 0)
  {
    RunIsPossible();
    LeaveReleases();
    HeldOfTwo(GONE, WAITER);
    UnitIsLost();
  }
  // ---- Somebody leaves and the write fails: a leaver is back in the queue ----

  function Deserted(): State {
    LeaveQueue(Popping(), 2, false, 31).0.(faults := After(0, false))
  }

  lemma {:induction false} DesertedInFlight()
    ensures InFlight(Deserted(), PopAndAllocate(RELEASED.cache).1, LEFT)
  {
    PoppedOne();
    LeftQueue();
    assert LiveUsers(Deserted().cache.members) == {};
    IsInFlight(Deserted(), LEFT);
  }

  lemma {:induction false} LeaverComesBack(s: State)
    requires InFlight(s, Popped(Entry(1, 2), 1, 0, Some(RightActive)), LEFT) && s.faults == After(0, false)
    requires s.cache.queue == []
    ensures var s' := ApplyAdvanceStep(s, Popped(Entry(1, 2), 1, 0, Some(RightActive)), 33).0;
      && AddsUp(s', 0) && !Agreement(s') && s'.cache.queue == [Entry(1, 2)]
      && PopAndAllocate(s'.cache).1 == Popped(Entry(1, 2), 0, 0, Some(Declined))
  {
    var p := Popped(Entry(1, 2), 1, 0, Some(RightActive));
    assert ApplyAdvanceStep(s, p, 33).1.StoreFailed?;
    RollbackIff(s, p, LEFT, 33);
    RollbackRequeuesLeaver(s, p, LEFT, 33);
  }

  // User 2 leaves while popped. The write of its right fails, the rollback queues it again,
  // and the next pop meets a membership that is DECLINED.
  lemma {:induction false} LeaveAndFailRequeuesLeaver()
    ensures PossibleRun(Initial(1, CFG), RUN) && Outcome(Initial(1, CFG), RUN) == SECOND
    ensures LeaveQueue(SECOND, 1, false, 30).0 == AdvanceQueue(RELEASED, 30).0
    ensures var s' := ApplyAdvanceStep(Deserted(), PopAndAllocate(RELEASED.cache).1, 33).0;
      && !Agreement(s') && s'.cache.queue == [Entry(1, 2)]
      && PopAndAllocate(s'.cache).1 == Popped(Entry(1, 2), 0, 0, Some(Declined))
  {
    RunIsPossible();
    LeaveReleases();
    PoppedOne();
    LeftQueue();
    DesertedInFlight();
    LeaverComesBack(Deserted());
  }
}
