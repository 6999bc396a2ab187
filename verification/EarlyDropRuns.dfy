/** Two runs from empty stores in which a waiting user is dropped before a whole timeout. */
module EarlyDropRuns {
  import opened Models
  import opened CacheScripts
  import opened DurableTx
  import opened Service
  import opened Invariants
  import opened System
  import opened Grace
  import opened EarlyDrop
  import T = Timers
  import L = LeaseProtocol

  const CFG: Config := Config(60_000, 60_000, 2000, 1, 1)

  const HOLDER: Membership := Membership(1, 1, RightActive, 1, None, Some(1), Some(60_010), 10, 10)
  const RIGHT: Right := Right(1, 1, 1, 1, Active, None, 10, 60_010, None)

  function Waiter(at: Time): Membership {
    Membership(1, 2, Queued, 1, None, None, None, at, at)
  }

  // User 1 takes the only unit and user 2 queues for it.
  const FIRST: State := State(
    1, CFG,
    Cache(Some(Stock(1, 0)), [], 0, map[1 := HOLDER], map[1 := RIGHT], {1}, {}, T.Timers(map[1 := 60], map[], map[]), map[]),
    Durable(Some(StockRow(1, 1, 1)), map[1 := HOLDER], map[1 := RIGHT], map[]),
    10, 2, Healthy, false, {}, {}, {})

  const SECOND: State := FIRST.(
    cache := FIRST.cache.(queue := [Entry(1, 2)], lastScore := 1, members := map[1 := HOLDER, 2 := Waiter(20)],
                          slots := {1, 2}, index := {2}, timers := T.Timers(map[1 := 60, 2 := 2], map[], map[])),
    db := FIRST.db.(members := map[1 := HOLDER, 2 := Waiter(20)]),
    clock := 20)

  const JOINS: seq<Step> := [
    Step(Join(1, 1, 0, Some(1)), 10, Healthy),
    Step(Join(2, 1, 0, Some(1)), 20, Healthy)]

  lemma {:induction false} FirstJoins()
    ensures Possible(Initial(1, CFG), JOINS[0]) && Next(Initial(1, CFG), JOINS[0]) == FIRST
  {
  }

  lemma {:induction false} SecondQueues()
    ensures Possible(FIRST, JOINS[1]) && Next(FIRST, JOINS[1]) == SECOND
  {
    assert Enqueue(FIRST.cache, 2).queue == [Entry(1, 2)];
  }

  lemma {:induction false} JoinsArePossible()
    ensures PossibleRun(Initial(1, CFG), JOINS) && Outcome(Initial(1, CFG), JOINS) == SECOND && Inv(SECOND)
  {
    FirstJoins();
    SecondQueues();
    StepFirst(FIRST, JOINS[1], []);
    StepFirst(Initial(1, CFG), JOINS[0], [JOINS[1]]);
    assert JOINS == [JOINS[0]] + [JOINS[1]];
    InitialInv(1, CFG);
    RunKeepsInv(Initial(1, CFG), JOINS);
  }

  // The process restarts at 1500; the timeout of user 2 ends at 2020.
  lemma {:induction false} RestartDropsEarly() returns (run: seq<Step>, c: T.Claim)
    ensures PossibleRun(Initial(1, CFG), JOINS) && Outcome(Initial(1, CFG), JOINS) == SECOND
    ensures DroppedEarly(SECOND, run, 2, c, 2, iset{1500})
  {
    JoinsArePossible();
    assert Seconds(1500) == 1 && Seconds(2020) == 2;
    run, c := RestartDrops(SECOND, 2, 1500, 2, iset{1500});
  }

  // ---- A claim left over ----

  const LEFTOVER: T.Claim := T.Claim(2, 2, 32_500, 2500)

  // At 2500 a worker claims the timer of user 2, and before it gets to it the user leaves and
  // joins again.
  const CLAIMED: State := SECOND.(
    cache := SECOND.cache.(timers := T.Timers(map[1 := 60], map[2 := 32_500], map[2 := 2])), open := {LEFTOVER}, clock := 2500)

  const LEFT: State := CLAIMED.(
    cache := CLAIMED.cache.(queue := [], members := map[1 := HOLDER, 2 := Waiter(20).Settled(Declined, 2600)],
                            slots := {1}, index := {}),
    db := CLAIMED.db.(members := map[1 := HOLDER, 2 := Waiter(20).Settled(Declined, 2600)]),
    clock := 2600)

  const BACK: State := LEFT.(
    cache := LEFT.cache.(queue := [Entry(2, 2)], lastScore := 2, members := map[1 := HOLDER, 2 := Waiter(3400)],
                         slots := {1, 2}, index := {2}, timers := T.Timers(map[1 := 60, 2 := 5], map[2 := 32_500], map[2 := 2])),
    db := LEFT.db.(members := map[1 := HOLDER, 2 := Waiter(3400)]),
    clock := 3400)

  const RETURN: seq<Step> := [
    Step(ClaimDue(1), 2500, Healthy),
    Step(Leave(2, false), 2600, Healthy),
    Step(Join(2, 1, 0, Some(1)), 3400, Healthy)]

  lemma {:induction false} OneIsDue(t: T.Timers, u: UserId, now: Time)
    requires T.IsDue(t, u, now) && forall v :: v in t.scheduled && v != u ==> !T.IsDue(t, v, now)
    ensures T.ClaimDue(t, now, 1) == (T.Take(t, u, now + T.LEASE), [L.ClaimOn(t, u, now)])
  {
    var next := T.NextDue(t, now);
    assert next == Some(u);
    var rest := T.ClaimDue(T.Take(t, u, now + T.LEASE), now, 0);
    assert [L.ClaimOn(t, u, now)] + rest.1 == [L.ClaimOn(t, u, now)];
  }

  lemma {:induction false} WorkerClaims()
    ensures Possible(SECOND, RETURN[0]) && Next(SECOND, RETURN[0]) == CLAIMED
  {
    OneIsDue(SECOND.cache.timers, 2, 2500);
    assert T.AsSet([LEFTOVER]) == {LEFTOVER};
  }

  lemma {:induction false} UserLeaves()
    ensures Possible(CLAIMED, RETURN[1]) && Next(CLAIMED, RETURN[1]) == LEFT
  {
    assert Without([Entry(1, 2)], 2) == [];
  }

  lemma {:induction false} ReturnIsCached()
    ensures JoinQueue(LEFT, 2, 1, 0, Some(1), 3400).0.cache == BACK.cache
  {
    assert Enqueue(LEFT.cache, 2).queue == [Entry(2, 2)];
  }

  lemma {:induction false} ReturnIsRecorded()
    ensures var s' := JoinQueue(LEFT, 2, 1, 0, Some(1), 3400).0;
      s'.db == BACK.db && s' == LEFT.(cache := s'.cache, db := s'.db)
  {
  }

  lemma {:induction false} UserReturns()
    ensures Possible(LEFT, RETURN[2]) && Next(LEFT, RETURN[2]) == BACK
  {
    ReturnIsCached();
    ReturnIsRecorded();
  }

  lemma {:induction false} ReturnIsPossible()
    ensures PossibleRun(SECOND, RETURN) && Outcome(SECOND, RETURN) == BACK && Inv(BACK)
  {
    WorkerClaims();
    UserLeaves();
    UserReturns();
    StepFirst(LEFT, RETURN[2], []);
    StepFirst(CLAIMED, RETURN[1], [RETURN[2]]);
    StepFirst(SECOND, RETURN[0], [RETURN[1], RETURN[2]]);
    assert RETURN == [RETURN[0]] + [RETURN[1], RETURN[2]];
    JoinsArePossible();
    RunKeepsInv(SECOND, RETURN);
  }

  lemma {:induction false} BackIsFresh()
    requires Inv(BACK)
    ensures JustQueued(BACK, 2)
  {
    assert Seconds(5400) == 5;
    assert Claims(BACK) == {LEFTOVER};
  }

  // The worker finds its claim stale and counts the timeout from its own pass at 2500, which
  // ends at 4500; the timeout of the new wait ends at 5400.
  lemma {:induction false} LeftoverDropsEarly() returns (run: seq<Step>, c: T.Claim)
    ensures PossibleRun(Initial(1, CFG), JOINS) && Outcome(Initial(1, CFG), JOINS) == SECOND
    ensures PossibleRun(SECOND, RETURN) && Outcome(SECOND, RETURN) == BACK
    ensures DroppedEarly(BACK, run, 2, c, 5, iset{})
  {
    JoinsArePossible();
    ReturnIsPossible();
    BackIsFresh();
    assert Seconds(4500) == 4;
    run, c := LeftoverDrops(BACK, 2, LEFTOVER, 5, iset{});
  }
}
